/**
 * The tenant-scoped object store the upload protocol keeps its state in.
 * Each operation takes a flag that makes it fail, standing for an I/O error
 * of the storage backend.
 */
module ObjectStore {
  import opened Wrappers
  import opened BlockMeta

  newtype byte = b: int | 0 <= b < 256

  /** An object's address: the tenant's prefix and the name under it. */
  datatype Key = Key(tenant: string, name: string)

  /**
   * A stored object: raw file bytes, or an encoded block descriptor.
   * Encoding a descriptor and decoding it again gives the same descriptor.
   */
  datatype Object = Blob(bytes: seq<byte>) | Descriptor(meta: Meta)

  type Store = map<Key, Object>

  datatype StoreError = NotFound | IOFailure

  /** Which store operation of one request fails. */
  datatype Faults = Faults(existsFails: bool, getFails: bool, uploadFails: bool, deleteFails: bool)

  const NO_FAULTS := Faults(false, false, false, false)

  /** Decoding a stored object as a block descriptor; raw bytes do not decode. */
  function DecodeMeta(o: Object): Option<Meta>
  {
    if o.Descriptor? then Some(o.meta) else None
  }

  /** The object under `k`, if any. */
  function Lookup(s: Store, k: Key): Option<Object>
  {
    if k in s then Some(s[k]) else None
  }

  /** `s` and `s'` hold the same objects for every tenant other than `tenant`. */
  ghost predicate SameOutsideTenant(s: Store, s': Store, tenant: string)
  {
    forall k: Key :: k.tenant != tenant ==> Lookup(s, k) == Lookup(s', k)
  }

  /** The object-storage client, holding every tenant's objects. */
  class Bucket {
    var objects: Store

    constructor (initial: Store)
      ensures objects == initial
    {
      objects := initial;
    }

    method Exists(k: Key, fail: bool) returns (r: Result<bool, StoreError>)
      ensures fail ==> r == Failure(IOFailure)
      ensures !fail ==> r == Success(k in objects)
    {
      if fail {
        return Failure(IOFailure);
      }
      return Success(k in objects);
    }

    method Get(k: Key, fail: bool) returns (r: Result<Object, StoreError>)
      ensures r.Success? <==> !fail && k in objects
      ensures r.Success? ==> r.value == objects[k]
    {
      if fail {
        return Failure(IOFailure);
      }
      if k !in objects {
        return Failure(NotFound);
      }
      return Success(objects[k]);
    }

    method Upload(k: Key, o: Object, fail: bool) returns (ok: bool)
      modifies this
      ensures ok == !fail
      ensures objects == if ok then old(objects)[k := o] else old(objects)
    {
      if fail {
        return false;
      }
      objects := objects[k := o];
      return true;
    }

    method Delete(k: Key, fail: bool) returns (ok: bool)
      modifies this
      ensures ok == !fail
      ensures objects == if ok then old(objects) - {k} else old(objects)
    {
      if fail {
        return false;
      }
      objects := objects - {k};
      return true;
    }
  }
}
