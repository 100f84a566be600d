/** What survives a crash: the committed versions of the tables, in commit
    order, and how far the write-ahead log is known to be on the disk. */
module Disks {
  import opened Tables

  /** `versions[k]` is the database after the k-th commit; every commit up to
      and including `synced` has been flushed. */
  datatype RawDisk = Disk(versions: seq<Db>, synced: nat) {

    predicate Valid() {
      synced < |versions|
    }

    function Current(): Db
      requires Valid()
    {
      versions[|versions| - 1]
    }

    function Durable(): Db
      requires Valid()
    {
      versions[synced]
    }
  }

  type Disk = d: RawDisk | d.Valid() witness Disk([EMPTY], 0)

  const NEW_DISK: Disk := Disk([EMPTY], 0)

  /** A commit under synchronous=NORMAL: acknowledged, not yet flushed. */
  function Commit(d: Disk, w: Write): Disk {
    d.(versions := d.versions + [Apply(d.Current(), w)])
  }

  /** A commit under synchronous=FULL: the log is flushed up to this commit. */
  function CommitDurably(d: Disk, w: Write): Disk {
    Commit(d, w).(synced := |d.versions|)
  }

  /** A power cut loses any number of unflushed commits, newest first. */
  function PowerCut(d: Disk, k: nat): Disk
    requires d.synced <= k < |d.versions|
  {
    Disk(d.versions[..k + 1], k)
  }

  /** Every version a restart could find is good, and versions only advance. */
  ghost predicate Sound(d: Disk) {
    && (forall k | 0 <= k < |d.versions| :: Good(d.versions[k]))
    && (forall j, k | 0 <= j <= k < |d.versions| :: Advances(d.versions[j], d.versions[k]))
  }

  lemma NewDiskSound()
    ensures Sound(NEW_DISK)
  {
    assert Advances(EMPTY, EMPTY);
  }

  lemma CommitSound(d: Disk, w: Write)
    requires Sound(d) && Legal(d.Current(), w)
    ensures Sound(Commit(d, w)) && Sound(CommitDurably(d, w))
    ensures Good(Apply(d.Current(), w)) && Advances(d.Current(), Apply(d.Current(), w))
  {
    var next := Apply(d.Current(), w);
    LegalWriteAdvances(d.Current(), w);
    var vs := d.versions + [next];
    forall j, k | 0 <= j <= k < |vs| ensures Advances(vs[j], vs[k]) {
      if k == |d.versions| {
        if j < k {
          assert Advances(d.versions[j], d.Current());
          AdvancesTransitive(d.versions[j], d.Current(), next);
        } else {
          assert Advances(next, next);
        }
      }
    }
  }

  lemma PowerCutSound(d: Disk, k: nat)
    requires Sound(d) && d.synced <= k < |d.versions|
    ensures Sound(PowerCut(d, k))
    ensures Advances(d.Durable(), PowerCut(d, k).Current())
    ensures Advances(PowerCut(d, k).Current(), d.Current())
  {
  }

  /** internal/state's DB, reduced to the one connection its pool holds. */
  class Database {
    var versions: seq<Db>
    var synced: nat
    var full: bool

    ghost predicate Valid()
      reads this
    {
      Image().Valid() && !full
    }

    ghost function Image(): RawDisk
      reads this
    {
      Disk(versions, synced)
    }

    constructor ()
      ensures Valid() && Image() == NEW_DISK
    {
      versions, synced, full := [EMPTY], 0, false;
    }

    /** One statement on the connection, at whatever level it is set to. */
    method Exec(w: Write)
      requires Image().Valid()
      modifies this
      ensures full == old(full)
      ensures Image() == if full then CommitDurably(old(Image()), w) else Commit(old(Image()), w)
    {
      versions := versions + [Apply(versions[|versions| - 1], w)];
      if full {
        synced := |versions| - 1;
      }
    }

    /** Durably: raise the level, write, restore it. */
    method Durably(w: Write)
      requires Valid()
      modifies this
      ensures Valid() && Image() == CommitDurably(old(Image()), w)
    {
      full := true;
      Exec(w);
      full := false;
    }

    /** AcquireClientLock: the insert-or-touch that claims a client. When another
        sequence holds the lock the statement affects no row. */
    method LockClient(c: Client, id: SeqId) returns (acquired: bool)
      requires Valid()
      modifies this
      ensures Valid()
      ensures acquired == CanLock(old(Image().Current()), c, id)
      ensures acquired ==> c in Image().Current().locks && Image().Current().locks[c] == id
      ensures Image() == if acquired then Commit(old(Image()), AcquireClientLock(c, id)) else old(Image())
    {
      var db := versions[|versions| - 1];
      acquired := c !in db.locks || db.locks[c] == id;
      if acquired {
        Exec(AcquireClientLock(c, id));
      }
    }
  }
}
