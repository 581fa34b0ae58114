/** The object store the Worker is bound to, and the one loop that empties a prefix of it. */
module FileStore {
  import opened Wrappers
  import opened Keys
  import opened World

  type Files = map<Key, Bytes>

  /** Everything but the objects a prefix covers. */
  function Without(objects: map<Key, Bytes>, p: Prefix): map<Key, Bytes> {
    map k | k in objects && !Covers(p, k) :: objects[k]
  }

  /** Deletions that raise on the way, each with the keys it had deleted by then. */
  type Failures = map<Prefix, set<Key>>

  /** What deleting under a prefix takes: all it covers, or the part it got to. */
  predicate Takes(failing: Failures, p: Prefix, k: Key) {
    Covers(p, k) && (p in failing ==> k in failing[p])
  }

  function Emptied(files: map<Key, Bytes>, p: Prefix, failing: Failures): map<Key, Bytes> {
    map k | k in files && !Takes(failing, p, k) :: files[k]
  }

  /** The files left once these prefixes were gone through. */
  function Remaining(files: map<Key, Bytes>, cleaned: set<Prefix>, failing: Failures): map<Key, Bytes> {
    map k | k in files && forall p | p in cleaned :: !Takes(failing, p, k) :: files[k]
  }

  lemma RemainingNothing(files: map<Key, Bytes>, failing: Failures)
    ensures Remaining(files, {}, failing) == files
  {
  }

  lemma RemainingOneMore(files: map<Key, Bytes>, cleaned: set<Prefix>, p: Prefix, failing: Failures)
    ensures Emptied(Remaining(files, cleaned, failing), p, failing) == Remaining(files, cleaned + {p}, failing)
  {
    hide Takes;
  }

  class Store {
    var objects: map<Key, Bytes>

    constructor ()
      ensures objects == map[]
    {
      objects := map[];
    }

    /** A PUT with `etagDoesNotMatch: "*"`: it succeeds only where nothing is stored. */
    method PutIfAbsentAt(key: Key, bytes: Bytes) returns (stored: bool)
      modifies this
      ensures objects == PutIfAbsent(old(objects), key, bytes)
      ensures stored <==> key !in old(objects)
      ensures key in objects && (!stored ==> objects[key] == old(objects)[key])
    {
      stored := key !in objects;
      if stored {
        objects := objects[key := bytes];
      }
    }

    /** The unconditional PUT of an uploaded PDF. */
    method PutInput(id: Id, bytes: Bytes)
      modifies this
      ensures objects == old(objects)[InputKey(id) := bytes]
    {
      objects := objects[InputKey(id) := bytes];
    }

    /** One page of a prefix, past the keys already listed; `truncated` says another one follows. */
    method List(p: Prefix, listed: set<Key>) returns (page: set<Key>, truncated: bool)
      ensures forall k | k in page :: k in objects && Covers(p, k) && k !in listed
      ensures truncated ==> page != {}
      ensures !truncated ==> forall k | k in objects && Covers(p, k) :: k in page || k in listed
    {
      var rest := set k | k in objects && Covers(p, k) && k !in listed;
      page := {};
      truncated := rest != {};
      if truncated {
        page :| page <= rest && page != {};
        truncated := page != rest;
      }
    }

    method Delete(keys: set<Key>)
      modifies this
      ensures objects == old(objects) - keys
    {
      objects := objects - keys;
    }

    /** A deletion that may raise half way. */
    method TryDelete(p: Prefix, failing: Failures) returns (raised: bool)
      modifies this
      ensures raised <==> p in failing
      ensures objects == Emptied(old(objects), p, failing)
    {
      raised := p in failing;
      if raised {
        Delete(set k | k in failing[p] && Covers(p, k));
      } else {
        DeleteFiles(p);
      }
    }

    /** Lists and deletes page by page: afterwards nothing is left under the prefix, and nothing
        else was touched. */
    method DeleteFiles(p: Prefix)
      modifies this
      ensures objects == Without(old(objects), p)
    {
      var listed: set<Key> := {};
      var truncated := true;
      while truncated
        invariant forall k | k in objects :: k in old(objects) && objects[k] == old(objects)[k]
        invariant forall k | k in old(objects) && k !in objects :: Covers(p, k)
        invariant forall k | k in listed :: k !in objects
        invariant !truncated ==> forall k | k in objects :: !Covers(p, k)
        decreases truncated, |objects|
      {
        var page;
        page, truncated := List(p, listed);
        ghost var before := objects;
        Delete(page);
        listed := listed + page;
        if truncated {
          FewerObjects(before, page);
        }
      }
    }
  }

  lemma FewerObjects(objects: map<Key, Bytes>, page: set<Key>)
    requires page != {} && page <= objects.Keys
    ensures |objects - page| < |objects|
  {
    var rest := objects - page;
    assert rest.Keys == objects.Keys - page;
    assert objects.Keys == rest.Keys + page;
    assert |rest.Keys| + |page| == |objects.Keys|;
  }
}
