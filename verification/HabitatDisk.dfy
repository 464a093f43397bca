/**
 The directory that pet/swift/PetHabitatStore.swift works on: names, inodes and the few system
 calls it uses. SHA-256 is modelled by a tag that carries the hashed data, so it is injective.
 */
module HabitatDisk {
  import opened Common

  type Data = seq<int>

  datatype Digest = Sha256(of: Data)

  /** `<source>.json`, `<source>-segment-<tick>-<digest>.json` and `.pet-<uuid>`. */
  datatype Name = Active | Archive(tick: nat, digest: Digest) | Temp(id: nat)

  /** Bounds of a habitat and of an archive, in bytes. */
  const LIMIT: nat := 8 * 1024 * 1024
  const ARCHIVE_LIMIT: nat := 64 * 1024 * 1024

  /** `lock` is the inode that the name of the lock file has now. */
  datatype Disk = Disk(names: map<Name, nat>, files: map<nat, Data>, lock: nat) {

    predicate Sound() {
      forall n :: n in names ==> names[n] in files
    }

    function Content(n: Name): Option<Data>
      requires Sound()
    {
      if n in names then Some(files[names[n]]) else None
    }

    /** No other name has the same inode: `st_nlink == 1`. */
    predicate Single(n: Name) {
      n in names && forall m :: m in names && names[m] == names[n] ==> m == n
    }

    /** `open` with O_CREAT and O_EXCL. */
    function Create(n: Name, ino: nat): Disk
      requires n !in names && ino !in files
    {
      Disk(names[n := ino], files[ino := []], lock)
    }

    function Append(ino: nat, bytes: Data): Disk
      requires ino in files
    {
      Disk(names, files[ino := files[ino] + bytes], lock)
    }

    function Link(from: Name, to: Name): Disk
      requires from in names && to !in names
    {
      Disk(names[to := names[from]], files, lock)
    }

    function Rename(from: Name, to: Name): Disk
      requires from in names && from != to
    {
      Disk((names - {from})[to := names[from]], files, lock)
    }

    function Unlink(n: Name): Disk {
      Disk(names - {n}, files, lock)
    }
  }

  // ---------------------------------------------------------------- documents

  /** A world's recorded history from event number `base` on. Earlier events are retired. */
  datatype World = World(base: nat, events: seq<int>) {
    function End(): nat { base + |events| }

    predicate Covers(k: nat) { base <= k < End() }

    function At(k: nat): int
      requires Covers(k)
    {
      events[k - base]
    }

    /** The first `cut` events, and what is left without them. */
    function Segment(cut: nat): World
      requires cut <= |events|
    {
      World(base, events[..cut])
    }

    function Retire(cut: nat): World
      requires cut <= |events|
    {
      World(base + cut, events[cut..])
    }
  }

  function Encode(w: World): Data { [w.base] + w.events }

  function Decode(data: Data): Option<World> {
    if data == [] || data[0] < 0 then None else Some(World(data[0], data[1..]))
  }

  lemma DecodeEncode(w: World)
    ensures Decode(Encode(w)) == Some(w)
  {
    assert Encode(w)[1..] == w.events;
  }
}
