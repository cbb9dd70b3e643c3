/** Small vocabulary shared by every module of the model. */
module Common {

  datatype Option<+T> = None | Some(value: T)

  /** Threads and goroutines are named by numbers; there is no bound on how many exist. */
  type Tid = nat

  newtype byte = x: int | 0 <= x < 256

  type Bytes = seq<byte>

  ghost predicate AtMostOne(threads: set<Tid>) {
    forall t, u :: t in threads && u in threads ==> t == u
  }

  /** What a semaphore's counter is after sys_sem_signal: incremented, then clamped at one. */
  function Signalled(c: nat): nat {
    if c + 1 > 1 then 1 else c + 1
  }

  function Flatten<T>(ss: seq<seq<T>>): seq<T> {
    if ss == [] then [] else ss[0] + Flatten(ss[1..])
  }

  lemma {:induction false} FlattenAppend<T>(a: seq<seq<T>>, b: seq<seq<T>>)
    ensures Flatten(a + b) == Flatten(a) + Flatten(b)
  {
    if a == [] {
      assert a + b == b;
    } else {
      assert (a + b)[1..] == a[1..] + b && (a + b)[0] == a[0];
      FlattenAppend(a[1..], b);
    }
  }

  lemma FlattenSplit<T>(ss: seq<seq<T>>, k: nat)
    requires k <= |ss|
    ensures Flatten(ss) == Flatten(ss[..k]) + Flatten(ss[k..])
  {
    FlattenAppend(ss[..k], ss[k..]);
    assert ss == ss[..k] + ss[k..];
  }

  lemma FlattenOne<T>(x: seq<T>)
    ensures Flatten([x]) == x
  {
    assert [x][1..] == [];
  }
}
