// Shared value types, the limiters' Redis keys, and facts about sequences.
module Wrappers {
  datatype Option<+T> = None | Some(value: T)

  // Whether a client heard back from Redis, and if not, whether its script ran.
  datatype Reply = Answered | LostBeforeRun | LostAfterRun

  // The Redis key under which a limiter keeps one of its own keys.
  function FullKey(prefix: string, key: string): string {
    prefix + ":" + key
  }

  lemma FullKeyInjective(prefix: string, k: string, k': string)
    ensures FullKey(prefix, k) == FullKey(prefix, k') ==> k == k'
  {
    assert FullKey(prefix, k)[|prefix| + 1..] == k;
    assert FullKey(prefix, k')[|prefix| + 1..] == k';
  }

  // ---- sequences ----

  lemma Assoc<T>(a: seq<T>, b: seq<T>, c: seq<T>)
    ensures a + b + c == a + (b + c)
    ensures a + [] == a
  {
  }

  lemma FirstOf<T>(first: T, more: seq<T>, rest: seq<T>)
    ensures [first] + more + rest == [first] + (more + rest)
    ensures ([first] + (more + rest))[1..] == more + rest
  {
  }
}
