/** What the chunk store keeps on disk: blobs, their metadata sidecars, and temporary files. */
module Disk {
  import opened Text

  type Id = Octets

  const NANOS: nat := 1_000_000_000

  /** How long an interrupted upload's temporary file is kept, in nanoseconds. */
  const TEMP_MAX_AGE: nat := 3600 * NANOS

  /** The whole seconds of an instant given in nanoseconds. */
  function Unix(instant: nat): nat
  {
    instant / NANOS
  }

  lemma UnixIsMonotone(a: nat, b: nat)
    requires a <= b
    ensures Unix(a) <= Unix(b)
  {
  }

  /** Thirty-two lowercase hexadecimal digits. */
  predicate IsValidId(id: Id)
  {
    |id| == 32 && forall i :: 0 <= i < |id| ==> '0' <= id[i] <= '9' || 'a' <= id[i] <= 'f'
  }

  datatype ChunkMeta = ChunkMeta(id: Id, size: nat, sha256: Octets, owner: Octets, createdAt: nat, expiresAt: nat)
  {
    predicate ExpiredAt(now: nat)
    {
      expiresAt <= Unix(now)
    }
  }

  /** A sidecar that decodes, or one that was cut off half-way through being written. */
  datatype Sidecar = Torn | Readable(meta: ChunkMeta)

  datatype Temp = Temp(body: Octets, mtime: nat)
  {
    predicate StaleAt(now: nat)
    {
      now > mtime + TEMP_MAX_AGE
    }
  }

  datatype Disk = Disk(blobs: map<Id, Octets>, sidecars: map<Id, Sidecar>, temps: map<Id, Temp>)

  const BLANK: Disk := Disk(map[], map[], map[])

  /** Store.Meta's reading of a sidecar: there, decodable and not past its expiry. */
  predicate LiveSidecar(d: Disk, id: Id, now: nat)
  {
    id in d.sidecars && d.sidecars[id].Readable? && !d.sidecars[id].meta.ExpiredAt(now)
  }

  /** A sweep's view of a sidecar: gone, undecodable, or past its expiry. */
  predicate Reclaimable(d: Disk, id: Id, now: nat)
  {
    id !in d.sidecars || d.sidecars[id].Torn? || d.sidecars[id].meta.ExpiredAt(now)
  }
}
