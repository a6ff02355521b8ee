/** The hash worker: a file is fed to an incremental hasher in 1 MB slices. */
module HashWorker {
  import opened Slicing

  const CHUNK_SIZE := 1024 * 1024

  /** An incremental hasher as a library offers it; `S` is its internal state. */
  datatype Hasher<!S> = Hasher(init: S, update: (S, Bytes) -> S, digest: S -> Bytes)

  /** Feeding two pieces equals feeding their concatenation (the Merkle-Damgard shape, section 6.2 of FIPS 180-4). */
  ghost predicate Streaming<S(!new)>(h: Hasher<S>) {
    && (forall s: S :: h.update(s, []) == s)
    && (forall s: S, a: Bytes, b: Bytes :: Absorbs(h, s, a, b))
  }

  ghost predicate Absorbs<S>(h: Hasher<S>, s: S, a: Bytes, b: Bytes) {
    h.update(h.update(s, a), b) == h.update(s, a + b)
  }

  /** The digest of the whole message at once. */
  function OneShot<S>(h: Hasher<S>, message: Bytes): Bytes {
    h.digest(h.update(h.init, message))
  }

  /** The worker's loop computes the digest of the whole file, for every size including zero. */
  method HashFile<S(!new)>(file: Bytes, h: Hasher<S>) returns (hash: Bytes)
    requires Streaming(h)
    ensures hash == OneShot(h, file)
  {
    var state := h.init;
    var size := |file|;
    var offset := 0;
    while offset < size
      invariant 0 <= offset
      invariant state == h.update(h.init, file[..Min(offset, size)])
    {
      var slice := file[offset..Min(offset + CHUNK_SIZE, size)];
      assert Absorbs(h, h.init, file[..offset], slice);
      assert file[..offset] + slice == file[..Min(offset + CHUNK_SIZE, size)];
      state := h.update(state, slice);
      offset := offset + CHUNK_SIZE;
    }
    assert file[..Min(offset, size)] == file;
    hash := h.digest(state);
  }
}
