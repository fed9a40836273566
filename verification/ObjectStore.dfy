/** The artifact store behind the StorageBackend interface (internal/storage). */
module ObjectStore {
  import opened Foundation

  /** How a Put turns out. Overwrites: its look for the object failed to see it. */
  datatype PutMode = Fails | IfAbsent | Overwrites

  function StoreAfter(store: map<string, Bytes>, c: string, b: Bytes, mode: PutMode): map<string, Bytes> {
    if mode.Overwrites? || (mode.IfAbsent? && c !in store) then store[c := b] else store
  }

  class Backend {
    var objects: map<string, Bytes>

    constructor (objects: map<string, Bytes>)
      ensures this.objects == objects
    {
      this.objects := objects;
    }

    method Get(checksum: string, ok: bool) returns (r: Option<Bytes>)
      ensures r == if ok && checksum in objects then Some(objects[checksum]) else None
    {
      if !ok || checksum !in objects {
        return None;
      }
      r := Some(objects[checksum]);
    }

    method Put(checksum: string, bytes: Bytes, mode: PutMode)
      modifies this`objects
      ensures objects == StoreAfter(old(objects), checksum, bytes, mode)
      ensures checksum in objects <==> checksum in old(objects) || mode != Fails
      ensures checksum in objects ==>
                objects[checksum] == if mode != Overwrites && checksum in old(objects) then old(objects)[checksum] else bytes
      ensures objects - {checksum} == old(objects) - {checksum}
    {
      match mode
      case Fails =>
      case IfAbsent =>
        if checksum !in objects { objects := objects[checksum := bytes]; }
      case Overwrites =>
        objects := objects[checksum := bytes];
    }

    /** Deleting a missing object succeeds. */
    method Delete(checksum: string, ok: bool)
      modifies this`objects
      ensures objects == if ok then old(objects) - {checksum} else old(objects)
    {
      if ok { objects := objects - {checksum}; }
    }
  }
}
