/**
 * The cache fingerprint `sha256_hash(task, input)`: a digest of the joined
 * string `task + "_" + input`. The digest itself (SHA-256 in the source) is a
 * parameter; what is proved is about the joined string it is applied to.
 */
module CacheKeys {
  import opened Tasks

  /** The string the digest is taken of. */
  function Key(task: string, input: string): string
  {
    task + "_" + input
  }

  /** The fingerprint of a (task, input) pair under a given digest function. */
  function Fingerprint(digest: string -> string, task: string, input: string): string
  {
    digest(Key(task, input))
  }

  /** A digest without collisions, the assumption under which SHA-256 is used as a cache key. */
  ghost predicate Injective(digest: string -> string)
  {
    forall a: string, b: string :: digest(a) == digest(b) ==> a == b
  }

  /**
   * The first two characters of a task's key tell the four tasks apart:
   * "co", "id", "im", "to". So no `Name(t) + "_"` is a prefix of another's.
   */
  lemma {:induction false} KeyHeadDeterminesTask(t1: Task, i1: string, t2: Task, i2: string)
    requires Key(Name(t1), i1)[..2] == Key(Name(t2), i2)[..2]
    ensures t1 == t2
  {
    assert Key(Name(t1), i1)[..2] == Name(t1)[..2];
    assert Key(Name(t2), i2)[..2] == Name(t2)[..2];
    assert Name(t1)[0] == Name(t2)[0] && Name(t1)[1] == Name(t2)[1];
  }

  /** Over the task enumeration, the joined key string determines the pair it was built from. */
  lemma {:induction false} KeyInjective(t1: Task, i1: string, t2: Task, i2: string)
    ensures Key(Name(t1), i1) == Key(Name(t2), i2) <==> t1 == t2 && i1 == i2
  {
    var k1, k2 := Key(Name(t1), i1), Key(Name(t2), i2);
    if k1 == k2 {
      KeyHeadDeterminesTask(t1, i1, t2, i2);
      var n := |Name(t1)| + 1;
      assert k1[n..] == i1;
      assert k2[n..] == i2;
    }
  }

  /**
   * Outside the enumeration the joined string is ambiguous: a task "code" with
   * input "explain_x" has the same key as task "code_explain" with input "x".
   */
  lemma KeyAmbiguousOutsideTasks()
    ensures Key("code", "explain_x") == Key(Name(CodeExplain), "x")
    ensures !IsTaskName("code")
  {
  }

  /**
   * With a collision-free digest, two requests over the enumeration have the same
   * fingerprint exactly when they have the same task and the same input.
   */
  lemma {:induction false} FingerprintIdentifiesRequest(digest: string -> string, t1: Task, i1: string, t2: Task, i2: string)
    requires Injective(digest)
    ensures Fingerprint(digest, Name(t1), i1) == Fingerprint(digest, Name(t2), i2) <==> t1 == t2 && i1 == i2
  {
    KeyInjective(t1, i1, t2, i2);
  }
}
