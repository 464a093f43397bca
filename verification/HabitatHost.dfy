/**
 The store and its host as the objects they are in the source: PetHabitatStore with its
 `expected` and `loaded` fields, PetNativeCore with the world, and PetHost, which saves one
 with the other. Every system call may fail; the contracts say what a call can do in any case,
 and exactly what it does if nothing fails. Here one process has the directory to itself; the
 interleaving of several processes is the subject of HabitatProtocol.
 */
module HabitatHost {
  import opened Common
  import opened HabitatDisk
  import opened HabitatProtocol
  import opened HabitatInvariant
  import opened PetExport

  /** A directory on disk, with the inode that the name of the lock file has now. */
  class Directory {
    var disk: Disk

    constructor ()
      ensures disk == Disk(map[], map[], 0)
    {
      disk := Disk(map[], map[], 0);
    }
  }

  /** What the model does not control: whether the calls into it, one after the other, succeed. */
  class Outside {
    const succeeds: nat -> bool
    var calls: nat

    constructor (succeeds: nat -> bool)
      ensures this.succeeds == succeeds && calls == 0
    {
      this.succeeds, calls := succeeds, 0;
    }

    /** No call since number `from` has failed. */
    ghost predicate Calm(from: nat)
      reads this
    {
      forall k :: from <= k < calls ==> succeeds(k)
    }

    method Call() returns (ok: bool)
      modifies this
      ensures ok == succeeds(old(calls)) && calls == old(calls) + 1
    {
      ok := succeeds(calls);
      calls := calls + 1;
    }
  }

  /** A file that is not there, or a regular one with one link and within the limit. */
  predicate Readable(disk: Disk, n: Name, limit: nat)
    requires disk.Sound()
  {
    n in disk.names ==> disk.Single(n) && |disk.Content(n).value| <= limit
  }

  /** The link of an archive meets no name, or one file with one link and the same content. */
  predicate Archivable(disk: Disk, archive: Data, tick: int)
    requires disk.Sound()
  {
    && |archive| <= ARCHIVE_LIMIT && tick >= 0
    && var n := Archive(tick, Sha256(archive));
       n in disk.names ==> disk.Single(n) && disk.Content(n) == Some(archive)
  }

  /** All linked archives are still there with the content their names promise. */
  ghost predicate ArchivesKept(disk: Disk, disk': Disk) {
    && FilesOK(disk')
    && forall n :: n in disk.names && n.Archive? ==> n in disk'.names && disk'.names[n] == disk.names[n]
  }

  /** Only the file `ino` has changed. */
  predicate OnlyFile(disk: Disk, disk': Disk, ino: nat) {
    disk'.names == disk.names && forall i :: i in disk.files && i != ino ==>
        i in disk'.files && disk'.files[i] == disk.files[i]
  }

  /** A new temporary file, whatever is written to it, leaves the other files readable or not. */
  lemma ReadableStays(disk: Disk, temp: Name, ino: nat, disk': Disk, n: Name, limit: nat)
    requires disk.Sound() && temp !in disk.names && ino !in disk.files && n != temp
    requires disk'.Sound() && OnlyFile(disk.Create(temp, ino), disk', ino)
    ensures Readable(disk', n, limit) <==> Readable(disk, n, limit)
  {
    if n in disk.names {
      assert disk'.names[n] == disk.names[n] != ino;
      if disk.Single(n) {
        forall m | m in disk'.names && disk'.names[m] == disk'.names[n] ensures m == n {
          assert m != temp && disk'.names[m] == disk.names[m];
        }
      }
      if disk'.Single(n) {
        forall m | m in disk.names && disk.names[m] == disk.names[n] ensures m == n {
          assert m != temp && disk'.names[m] == disk.names[m];
        }
      }
    }
  }

  class PetHabitatStore {
    const directory: Directory
    const lock: nat
    var expected: Option<Digest>
    var loaded: bool

    constructor (directory: Directory)
      ensures this.directory == directory && lock == directory.disk.lock && !loaded && expected == None
    {
      this.directory := directory;
      lock := directory.disk.lock;
      expected := None;
      loaded := false;
    }

    /** Whether this save goes through if no call fails. */
    predicate Allows(value: Data, archive: Option<Data>, tick: int)
      reads this, directory
      requires directory.disk.Sound()
    {
      && loaded && |value| <= LIMIT && lock == directory.disk.lock
      && Readable(directory.disk, Active, LIMIT) && DigestOf(directory.disk.Content(Active)) == expected
      && (archive.Some? ==> Archivable(directory.disk, archive.value, tick))
    }

    /** `flock` and the check that the lock file is still the one that was opened. */
    method Coordinate(os: Outside) returns (inside: bool)
      modifies os
      ensures inside ==> lock == directory.disk.lock
      ensures os.calls >= old(os.calls) && (os.Calm(old(os.calls)) ==> (inside <==> lock == directory.disk.lock))
    {
      var locked := os.Call();
      inside := locked && lock == directory.disk.lock;
    }

    method ReadFile(os: Outside, n: Name, limit: nat) returns (ok: bool, content: Option<Data>)
      requires directory.disk.Sound()
      modifies os
      ensures ok ==> content == directory.disk.Content(n) && Readable(directory.disk, n, limit)
      ensures os.calls >= old(os.calls)
      ensures os.Calm(old(os.calls)) ==> (ok <==> Readable(directory.disk, n, limit))
    {
      content := None;
      if n !in directory.disk.names {
        return true, None;
      }
      ok := os.Call();
      if ok && directory.disk.Single(n) && |directory.disk.Content(n).value| <= limit {
        content := directory.disk.Content(n);
      } else {
        ok := false;
      }
    }

    /** A load gives the content of the active file and remembers its revision, or fails and
        remembers nothing new. If no call fails, it succeeds exactly if the lock is current and
        the file can be read. */
    method Load(os: Outside) returns (ok: bool, found: Option<Data>)
      requires directory.disk.Sound()
      modifies this, os
      ensures ok ==> found == directory.disk.Content(Active) && loaded && expected == DigestOf(found)
      ensures ok ==> lock == directory.disk.lock && Readable(directory.disk, Active, LIMIT)
      ensures ok ==> forall next :: |next| <= LIMIT ==> Allows(next, None, 0)
      ensures !ok ==> loaded == old(loaded) && expected == old(expected)
      ensures os.calls >= old(os.calls)
      ensures os.Calm(old(os.calls)) ==>
                (ok <==> lock == directory.disk.lock && Readable(directory.disk, Active, LIMIT))
    {
      found := None;
      ok := Coordinate(os);
      if ok {
        ok, found := ReadFile(os, Active, LIMIT);
        if ok {
          expected, loaded := DigestOf(found), true;
        }
      }
    }

    /** The `write` calls for a temporary file; each may write any part of what is left. */
    method Fill(os: Outside, temp: Name, ino: nat, value: Data) returns (ok: bool)
      requires FilesOK(directory.disk) && temp.Temp? && OwnsTemp(directory.disk, temp, ino)
      requires directory.disk.files[ino] == []
      modifies directory, os
      ensures FilesOK(directory.disk) && directory.disk.names == old(directory.disk.names)
      ensures directory.disk.lock == old(directory.disk.lock)
      ensures directory.disk.Content(Active) == old(directory.disk.Content(Active))
      ensures OnlyFile(old(directory.disk), directory.disk, ino)
      ensures ok ==> directory.disk.files[ino] == value
      ensures os.calls >= old(os.calls) && (os.Calm(old(os.calls)) ==> ok)
    {
      var offset := 0;
      while offset < |value|
        invariant 0 <= offset <= |value|
        invariant FilesOK(directory.disk) && directory.disk.names == old(directory.disk.names)
        invariant directory.disk.lock == old(directory.disk.lock)
        invariant directory.disk.Content(Active) == old(directory.disk.Content(Active))
        invariant OnlyFile(old(directory.disk), directory.disk, ino)
        invariant directory.disk.files[ino] == value[..offset]
        invariant os.calls >= old(os.calls)
      {
        ok := os.Call();
        if !ok { return; }
        var count: nat :| 0 < count <= |value| - offset;
        AppendKeepsFiles(directory.disk, temp, ino, value[offset..offset + count]);
        assert value[..offset] + value[offset..offset + count] == value[..offset + count];
        directory.disk := directory.disk.Append(ino, value[offset..offset + count]);
        offset := offset + count;
      }
      assert value[..|value|] == value;
      ok := os.Call();  // fsync
    }

    /** The link or the rename of a finished temporary file. */
    method Publish(os: Outside, temp: Name, ino: nat, value: Data, name: Name) returns (ok: bool)
      requires FilesOK(directory.disk) && OwnsTemp(directory.disk, temp, ino) && temp.Temp?
      requires directory.disk.files[ino] == value && !name.Temp? && (name.Archive? ==> name.digest == Sha256(value))
      modifies directory, os
      ensures ArchivesKept(old(directory.disk), directory.disk) && directory.disk.lock == old(directory.disk.lock)
      ensures ok ==> directory.disk.Content(name) == Some(value)
      ensures !ok || name.Archive? ==> directory.disk.Content(Active) == old(directory.disk.Content(Active))
      ensures os.calls >= old(os.calls)
      ensures ok && name.Archive? ==> old(Readable(directory.disk, name, ARCHIVE_LIMIT))
      ensures os.Calm(old(os.calls)) ==>
                (ok <==> (name.Archive? ==> old(Readable(directory.disk, name, ARCHIVE_LIMIT))))
    {
      ok := os.Call();
      if !ok {
        return;
      }
      if name.Active? {
        RenameKeepsFiles(directory.disk, temp, ino);
        directory.disk := directory.disk.Rename(temp, name);
      } else if name !in directory.disk.names {
        LinkKeepsFiles(directory.disk, temp, ino, name);
        directory.disk := directory.disk.Link(temp, name);
      } else {
        // EEXIST
        var readable, content := ReadFile(os, name, ARCHIVE_LIMIT);
        ok := readable && content == Some(value);
      }
    }

    /** Publishes a whole value under a name: an archive by linking, the active file by renaming.
        On failure no name but a left-over temporary one is different. If no call fails, it fails
        only for an archive whose name is taken by a file that cannot be read back. */
    method Write(os: Outside, value: Data, name: Name) returns (ok: bool)
      requires FilesOK(directory.disk) && (name.Archive? ==> name.digest == Sha256(value)) && !name.Temp?
      modifies directory, os
      ensures ArchivesKept(old(directory.disk), directory.disk) && directory.disk.lock == old(directory.disk.lock)
      ensures ok ==> directory.disk.Content(name) == Some(value)
      ensures !ok || name.Archive? ==> directory.disk.Content(Active) == old(directory.disk.Content(Active))
      ensures os.calls >= old(os.calls)
      ensures ok && name.Archive? ==> old(Readable(directory.disk, name, ARCHIVE_LIMIT))
      ensures os.Calm(old(os.calls)) ==>
                (ok <==> (name.Archive? ==> old(Readable(directory.disk, name, ARCHIVE_LIMIT))))
    {
      var temp, ino := Fresh();
      ok := os.Call();
      if !ok { return; }
      CreateKeepsFiles(directory.disk, temp, ino);
      directory.disk := directory.disk.Create(temp, ino);
      ok := Fill(os, temp, ino, value);
      ReadableStays(old(directory.disk), temp, ino, directory.disk, name, ARCHIVE_LIMIT);
      if ok {
        ok := Publish(os, temp, ino, value, name);
      }
      var unlinked := os.Call();
      if unlinked {
        UnlinkKeepsFiles(directory.disk, temp);
        directory.disk := directory.disk.Unlink(temp);
      }
    }

    /** A temporary name and an inode that are not in use. */
    method Fresh() returns (temp: Name, ino: nat)
      requires directory.disk.Sound()
      ensures temp.Temp? && temp !in directory.disk.names && ino !in directory.disk.files
    {
      var ids := set n | n in directory.disk.names && n.Temp? :: n.id;
      var id := Above(ids);
      ino := Above(directory.disk.files.Keys);
      temp := Temp(id);
    }

    /** A save succeeds only onto the content last loaded or saved; then the file is the whole
        new value and the archive is linked. A failed save leaves the active file alone. If no
        call fails, it succeeds exactly if `Allows` holds; then the next save is allowed too. */
    method Save(os: Outside, value: Data, archive: Option<Data>, tick: int) returns (ok: bool)
      requires FilesOK(directory.disk)
      modifies this, directory, os
      ensures ArchivesKept(old(directory.disk), directory.disk)
      ensures loaded == old(loaded) && directory.disk.lock == old(directory.disk.lock)
      ensures ok ==> old(Allows(value, archive, tick))
      ensures ok ==> directory.disk.Content(Active) == Some(value) && expected == Some(Sha256(value))
      ensures ok && archive.Some? ==> directory.disk.Content(Archive(tick, Sha256(archive.value))) == archive
      ensures !ok ==> directory.disk.Content(Active) == old(directory.disk.Content(Active)) && expected == old(expected)
      ensures os.calls >= old(os.calls)
      ensures os.Calm(old(os.calls)) ==> (ok <==> old(Allows(value, archive, tick)))
      ensures ok ==> forall next :: |next| <= LIMIT ==> Allows(next, None, 0)
    {
      if !loaded || |value| > LIMIT {
        return false;
      }
      ok := Coordinate(os);
      if !ok { return; }
      var current: Option<Data>;
      ok, current := ReadFile(os, Active, LIMIT);
      if !ok || DigestOf(current) != expected {
        return false;
      }
      if archive.Some? {
        if |archive.value| > ARCHIVE_LIMIT || tick < 0 {
          return false;
        }
        ok := Write(os, archive.value, Archive(tick, Sha256(archive.value)));
        if !ok { return; }
      }
      ok := Write(os, value, Active);
      if ok {
        expected := Some(Sha256(value));
      }
    }
  }

  /** A number above all numbers of a set. */
  method Above(ids: set<nat>) returns (id: nat)
    ensures id !in ids
  {
    var rest := ids;
    id := 0;
    while rest != {}
      invariant rest <= ids && forall n :: n in ids && n !in rest ==> n < id
      decreases rest
    {
      var n :| n in rest;
      rest := rest - {n};
      if n >= id { id := n + 1; }
    }
  }

  // ---------------------------------------------------------------- the core and the host

  /** A document as the chunked export writes it: the base, then the events. */
  function PartsOf(w: World): Parts<int> {
    Parts([w.base], Singles(w.events), [], [], [], [])
  }

  function Singles(events: seq<int>): (items: seq<Data>) {
    seq(|events|, i requires 0 <= i < |events| => [events[i]])
  }

  lemma {:induction false} SinglesJoin(events: seq<int>)
    ensures Joined(Singles(events), []) == events
  {
    if events != [] {
      SinglesJoin(events[1..]);
      assert Singles(events)[1..] == Singles(events[1..]);
      assert [events[0]] + [] + events[1..] == events;
    }
  }

  lemma WholeIsTheDocument(w: World)
    ensures Whole(PartsOf(w)) == Encode(w)
  {
    SinglesJoin(w.events);
    assert Joined([], PartsOf(w).comma) == [];
    assert [w.base] + w.events + [] + [] + [] == Encode(w);
  }

  /** The world that the host drives; the JavaScript behind it is not part of this model. `plan`
      says how many events of a world a segment would retire, or that no segment is needed. */
  class PetNativeCore {
    var world: World
    const plan: World -> Option<nat>
    /** The segment between `prepareSegment` and `commitSegment`. */
    var cut: nat

    constructor (world: World, plan: World -> Option<nat>)
      ensures this.world == world && this.plan == plan && cut == 0
    {
      this.world, this.plan, cut := world, plan, 0;
    }

    function Planned(): (segment: Option<nat>)
      reads this
      ensures segment.Some? ==> segment.value <= |world.events|
    {
      var segment := plan(world);
      if segment.Some? && segment.value > |world.events| then Some(|world.events|) else segment
    }

    /** Nothing if no segment is needed; else the document without the completed history. */
    method PrepareSegment(os: Outside) returns (ok: bool, next: Option<Data>)
      modifies this`cut, os
      ensures ok ==> next == if Planned().None? then None else Some(Encode(world.Retire(Planned().value)))
      ensures ok && next.Some? ==> cut == Planned().value && |next.value| <= LIMIT
      ensures os.calls >= old(os.calls)
      ensures os.Calm(old(os.calls)) ==>
                (ok <==> (Planned().Some? ==> |Encode(world.Retire(Planned().value))| <= LIMIT))
    {
      next := None;
      ok := os.Call();
      if !ok || Planned().None? {
        return;
      }
      ok := os.Call();
      if ok {
        cut := Planned().value;
        next := Some(Encode(world.Retire(cut)));
        ok := |next.value| <= LIMIT;
      }
    }

    /** The completed history, as the chunks of the world join to it. */
    method ExportCompleted(os: Outside) returns (ok: bool, data: Data)
      requires cut <= |world.events|
      modifies os
      ensures ok ==> data == Encode(world.Segment(cut)) && |data| <= ARCHIVE_LIMIT
      ensures os.calls >= old(os.calls)
      ensures os.Calm(old(os.calls)) ==> (ok <==> |Encode(world.Segment(cut))| <= ARCHIVE_LIMIT)
    {
      data := [];
      ok := os.Call();
      if ok {
        WholeIsTheDocument(world.Segment(cut));
        ok, data := Export(PartsOf(world.Segment(cut)), ARCHIVE_LIMIT);
      }
    }

    method CommitSegment(os: Outside) returns (ok: bool)
      requires cut <= |world.events|
      modifies this, os
      ensures world == if ok then old(world.Retire(cut)) else old(world)
      ensures os.calls >= old(os.calls) && (os.Calm(old(os.calls)) ==> ok)
    {
      ok := os.Call();
      if ok {
        world := world.Retire(cut);
      }
    }
  }

  /** The world that a save keeps, and the archive that it writes. */
  function Kept(w: World, planned: Option<nat>): World
    requires planned.Some? ==> planned.value <= |w.events|
  {
    match planned
    case None => w
    case Some(cut) => w.Retire(cut)
  }

  function Archived(w: World, planned: Option<nat>): Option<Data>
    requires planned.Some? ==> planned.value <= |w.events|
  {
    match planned
    case None => None
    case Some(cut) => Some(Encode(w.Segment(cut)))
  }

  /** Document and archive are within their limits. */
  predicate Fits(w: World, planned: Option<nat>)
    requires planned.Some? ==> planned.value <= |w.events|
  {
    && |Encode(Kept(w, planned))| <= LIMIT
    && (planned.Some? ==> |Encode(w.Segment(planned.value))| <= ARCHIVE_LIMIT)
  }

  /** The archive of the planned segment is in the directory. */
  predicate IsArchived(disk: Disk, w: World, planned: Option<nat>)
    requires disk.Sound() && (planned.Some? ==> planned.value <= |w.events|)
  {
    var archive := Archived(w, planned);
    archive.Some? ==> disk.Content(Archive(w.End(), Sha256(archive.value))) == archive
  }

  /** The active file is absent, or can be read and decoded. */
  predicate Restorable(disk: Disk)
    requires disk.Sound()
  {
    && Readable(disk, Active, LIMIT)
    && (Active in disk.names ==> Decode(disk.Content(Active).value).Some?)
  }

  /** The store allows the save that the core prepares. */
  predicate Takes(store: PetHabitatStore, core: PetNativeCore)
    reads store, store.directory, core
    requires store.directory.disk.Sound()
  {
    var w, planned := core.world, core.Planned();
    store.Allows(Encode(Kept(w, planned)), Archived(w, planned), w.End())
  }

  datatype Source = Wild | Demo | Live | File

  class PetHost {
    var core: PetNativeCore?
    var store: PetHabitatStore?
    var source: Source
    var failed: bool
    var restoring: bool
    const places: map<Source, Directory>

    const plan: World -> Option<nat>

    ghost predicate Valid()
      reads this, store, if store != null then {store.directory} else {}
    {
      store != null ==> FilesOK(store.directory.disk)
    }

    constructor (places: map<Source, Directory>, plan: World -> Option<nat>)
      ensures core == null && store == null && source == Live && !failed && !restoring
      ensures this.places == places && this.plan == plan && Valid()
    {
      this.places, this.plan := places, plan;
      core, store, source, failed, restoring := null, null, Live, false, false;
    }

    /** Nothing is to be saved, or the store takes the document that the core prepares: the whole
        world, or with a segment the world without it and the archive. */
    predicate MaySave()
      reads this, core, store, if store != null then {store.directory} else {}
      requires store != null ==> store.directory.disk.Sound()
    {
      || source == Live || core == null
      || (&& store != null && !restoring && !failed
          && Takes(store, core))
    }

    /** The world retires history only into an archive that is then in the directory; a save
        that reports success leaves the world's document in the active file. If no call fails,
        a save succeeds exactly if `MaySave` holds. */
    method Save(os: Outside) returns (ok: bool)
      requires Valid()
      modifies core, store, os, if store != null then {store.directory} else {}
      ensures Valid()
      ensures source == Live || core == null ==> ok
      ensures source != Live && core != null && (store == null || restoring || failed) ==>
                !ok && core.world == old(core.world)
      ensures store != null ==> ArchivesKept(old(store.directory.disk), store.directory.disk)
      ensures core != null && core.world != old(core.world) ==>
                && core.world == Kept(old(core.world), old(core.Planned()))
                && store != null && IsArchived(store.directory.disk, old(core.world), old(core.Planned()))
      ensures source != Live && core != null && ok ==>
                && core.world == Kept(old(core.world), old(core.Planned()))
                && store != null && store.directory.disk.Content(Active) == Some(Encode(core.world))
      ensures source != Live && core != null && store != null ==>
                || store.directory.disk.Content(Active) == old(store.directory.disk.Content(Active))
                || store.directory.disk.Content(Active) == Some(Encode(Kept(old(core.world), old(core.Planned()))))
      ensures os.calls >= old(os.calls)
      ensures os.Calm(old(os.calls)) ==> (ok <==> old(MaySave()))
    {
      if source == Live || core == null {
        return true;
      }
      if store == null || restoring || failed {
        return false;
      }
      ok := SaveInto(os, core, store);
    }

    /** The part of `save` that throws. */
    method SaveInto(os: Outside, core: PetNativeCore, store: PetHabitatStore) returns (ok: bool)
      requires FilesOK(store.directory.disk)
      modifies core, store, store.directory, os
      ensures ArchivesKept(old(store.directory.disk), store.directory.disk)
      ensures core.world != old(core.world) ==>
                && core.world == Kept(old(core.world), old(core.Planned()))
                && IsArchived(store.directory.disk, old(core.world), old(core.Planned()))
      ensures ok ==> core.world == Kept(old(core.world), old(core.Planned()))
      ensures ok ==> store.directory.disk.Content(Active) == Some(Encode(core.world))
      ensures || store.directory.disk.Content(Active) == old(store.directory.disk.Content(Active))
              || store.directory.disk.Content(Active) == Some(Encode(Kept(old(core.world), old(core.Planned()))))
      ensures os.calls >= old(os.calls)
      ensures os.Calm(old(os.calls)) ==>
                (ok <==> old(Takes(store, core)))
    {
      ghost var w, planned := core.world, core.Planned();
      var document: Data, archive: Option<Data>;
      ok, document, archive := Prepare(os, core);
      if !ok {
        return;
      }
      var tick := core.world.base + |core.world.events|;
      assert Takes(store, core) == store.Allows(document, archive, tick);
      ok := store.Save(os, document, archive, tick);
      if ok && archive.Some? {
        ok := core.CommitSegment(os);
      }
    }

    /** What is to be saved, and with a segment the archive. */
    method Prepare(os: Outside, core: PetNativeCore) returns (ok: bool, document: Data, archive: Option<Data>)
      modifies core`cut, os
      ensures ok ==> document == Encode(Kept(core.world, core.Planned()))
      ensures ok ==> archive == Archived(core.world, core.Planned())
      ensures ok && archive.Some? ==> core.cut == core.Planned().value
      ensures os.calls >= old(os.calls)
      ensures os.Calm(old(os.calls)) && !ok ==> !Fits(core.world, core.Planned())
    {
      archive, document := None, [];
      var next: Option<Data>;
      ok, next := core.PrepareSegment(os);
      if ok && next.Some? {
        var completed: Data;
        document := next.value;
        ok, completed := core.ExportCompleted(os);
        archive := Some(completed);
      } else if ok {
        document := Encode(core.world);
      }
    }

    /** A new source is opened only after the old world was saved, unless the caller discards it. */
    method SelectSource(os: Outside, next: Source, discardingUnsaved: bool) returns (ok: bool)
      requires Valid() && forall p :: p in places ==> FilesOK(places[p].disk)
      modifies this, core, store, os, if store != null then {store.directory} else {}
      ensures ok ==> source == next
      ensures !ok ==> source == old(source) && core == old(core) && store == old(store)
      ensures !ok ==> next != source && !discardingUnsaved
      ensures os.calls >= old(os.calls)
      ensures !ok && os.Calm(old(os.calls)) ==> !old(MaySave())
      ensures ok && next == old(source) ==> core == old(core) && store == old(store)
      ensures ok && next != old(source) ==> IsOpen()
      ensures ok && !discardingUnsaved && next != old(source) && old(source) != Live && old(core) != null ==>
                old(store) != null && FilesOK(old(store).directory.disk)
                && old(store).directory.disk.Content(Active) == Some(Encode(old(core).world))
    {
      if next == source {
        return true;
      }
      if !discardingUnsaved {
        ok := Save(os);
        if !ok { return; }
      }
      source := next;
      Restart(os);
      ok := true;
    }

    /** The host as it is after `restart`. */
    ghost predicate IsOpen()
      reads this, core, store, if store != null then {store.directory} else {}
    {
      && Valid() && (source == Live ==> core == null && store == null)
      && (source != Live ==> core != null && !failed && !restoring)
      && (store != null ==>
            && source in places && store.directory == places[source] && core != null
            && (forall next :: |next| <= LIMIT ==> store.Allows(next, None, 0))
            && (store.directory.disk.Content(Active).Some? ==>
                  Decode(store.directory.disk.Content(Active).value) == Some(core.world)))
      && (core != null && (store == null || store.directory.disk.Content(Active).None?) ==> core.world == World(0, []))
    }

    predicate CanRestore()
      reads this, if source in places then {places[source]} else {}
    {
      source in places && places[source].disk.Sound() && Restorable(places[source].disk)
    }

    /** Opens the store of the current source and restores its world. If no call fails, a file
        that can be read and decoded, or no file, gives a store that may save. */
    method Restart(os: Outside)
      requires forall p :: p in places ==> FilesOK(places[p].disk)
      modifies this`core, this`store, this`failed, this`restoring, os
      ensures IsOpen()
      ensures core != null ==> fresh(core) && core.plan == plan
      ensures store != null ==> fresh(store)
      ensures os.calls >= old(os.calls)
      ensures os.Calm(old(os.calls)) ==>
                (store != null <==> source != Live && old(CanRestore()))
    {
      core, store, failed, restoring := null, null, false, false;
      if source == Live {
        return;
      }
      var world := World(0, []);
      var available := os.Call();
      if available && source in places {
        var files := new PetHabitatStore(places[source]);
        var ok, saved := files.Load(os);
        if ok {
          if saved.None? {
            store := files;
          } else if Decode(saved.value).Some? {
            store, world := files, Decode(saved.value).value;
          }
        }
      }
      core := new PetNativeCore(world, plan);
    }
  }
}
