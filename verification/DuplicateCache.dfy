/** The bounded first-in first-out cache of packets a flood node has seen. */
module DuplicateCache {
  import opened Types

  datatype Key = Key(src: Address, id: U32)

  const RECENT_CACHE_CAP: nat := 32

  /** What remembering one key makes of the list, oldest first. */
  function Remembered(recent: seq<Key>, k: Key): seq<Key> {
    if k in recent then recent
    else if |recent| + 1 > RECENT_CACHE_CAP then (recent + [k])[1..]
    else recent + [k]
  }

  /** The list after remembering these keys in order, starting from nothing. */
  function Cache(keys: seq<Key>): seq<Key> {
    if keys == [] then [] else Remembered(Cache(keys[..|keys| - 1]), keys[|keys| - 1])
  }

  /** The last entries of an unbounded log, as many as the cache has room for. */
  function Window(log: seq<Key>): seq<Key> {
    if |log| <= RECENT_CACHE_CAP then log else log[|log| - RECENT_CACHE_CAP..]
  }

  /** The unbounded reference: every key that was not found among the last 32 logged ones is logged. */
  function Log(keys: seq<Key>): seq<Key> {
    if keys == [] then []
    else
      var log := Log(keys[..|keys| - 1]);
      if keys[|keys| - 1] in Window(log) then log else log + [keys[|keys| - 1]]
  }

  lemma RememberedFits(recent: seq<Key>, k: Key)
    requires NoDuplicates(recent) && |recent| <= RECENT_CACHE_CAP
    ensures NoDuplicates(Remembered(recent, k)) && |Remembered(recent, k)| <= RECENT_CACHE_CAP
    ensures k in Remembered(recent, k)
    ensures Elements(Remembered(recent, k)) <= Elements(recent) + {k}
  {
    var grown := recent + [k];
    if k !in recent {
      assert NoDuplicates(grown) && grown[|recent|] == k;
      assert |recent| == RECENT_CACHE_CAP ==> grown[1..][|recent| - 1] == k;
    }
  }

  /** Nothing is dropped while there is room. */
  lemma RememberedKeeps(recent: seq<Key>, k: Key)
    requires k in recent || |recent| < RECENT_CACHE_CAP
    ensures Elements(Remembered(recent, k)) == Elements(recent) + {k}
  {
  }

  lemma WindowSlides(log: seq<Key>, k: Key)
    requires k !in Window(log)
    ensures Remembered(Window(log), k) == Window(log + [k])
  {
    if |log| >= RECENT_CACHE_CAP {
      var from := |log| - RECENT_CACHE_CAP;
      assert Window(log) == log[from..];
      assert Window(log + [k]) == (log + [k])[from + 1..];
      assert (log[from..] + [k])[1..] == (log + [k])[from + 1..];
    }
  }

  /** The cache is always the last 32 entries of the log. */
  lemma {:induction false} CacheIsWindow(keys: seq<Key>)
    ensures Cache(keys) == Window(Log(keys))
  {
    if keys == [] {
      assert Log(keys) == [];
    } else {
      var front, k := keys[..|keys| - 1], keys[|keys| - 1];
      CacheIsWindow(front);
      var log := Log(front);
      assert Log(keys) == if k in Window(log) then log else log + [k];
      assert Cache(keys) == Remembered(Cache(front), k);
      hide Log, Cache, Window;
      if k !in Window(log) { WindowSlides(log, k); }
    }
  }

  /** Between two insertions of one key, more than 32 keys were inserted. */
  lemma {:induction false} InsertionsKeepTheirDistance(keys: seq<Key>, i: nat, j: nat)
    requires i < j < |Log(keys)| && Log(keys)[i] == Log(keys)[j]
    ensures j - i > RECENT_CACHE_CAP
  {
    var front, k := keys[..|keys| - 1], keys[|keys| - 1];
    var log := Log(front);
    if j < |log| {
      InsertionsKeepTheirDistance(front, i, j);
    } else {
      WindowHoldsRecent(log, i);
    }
  }

  lemma WindowHoldsRecent(log: seq<Key>, i: nat)
    requires i < |log|
    ensures |log| - i <= RECENT_CACHE_CAP ==> log[i] in Window(log)
  {
    var start := if |log| <= RECENT_CACHE_CAP then 0 else |log| - RECENT_CACHE_CAP;
    assert start <= i ==> Window(log)[i - start] == log[i];
  }

  lemma {:induction false} CacheFits(keys: seq<Key>)
    ensures NoDuplicates(Cache(keys)) && |Cache(keys)| <= RECENT_CACHE_CAP
  {
    if keys != [] {
      CacheFits(keys[..|keys| - 1]);
      RememberedFits(Cache(keys[..|keys| - 1]), keys[|keys| - 1]);
    }
  }

  /** The keys remembered after position i, other than the one remembered there. */
  function OthersSince(keys: seq<Key>, i: nat): set<Key>
    requires i < |keys|
  {
    Elements(keys[i + 1..]) - {keys[i]}
  }

  lemma OthersGrow(keys: seq<Key>, i: nat)
    requires i < |keys| - 1
    ensures var front := keys[..|keys| - 1];
            front[..i] == keys[..i] && OthersSince(keys, i) == OthersSince(front, i) + {keys[|keys| - 1]} - {keys[i]}
  {
    var front, x := keys[..|keys| - 1], keys[|keys| - 1];
    assert keys == front + [x];
    assert keys[i + 1..] == front[i + 1..] + [x];
  }

  /** k is cached, and whatever stands behind it is one of the others. */
  ghost predicate Behind(recent: seq<Key>, k: Key, others: set<Key>) {
    k in recent && forall p, q :: 0 <= p < q < |recent| && recent[p] == k ==> recent[q] in others
  }

  lemma BehindStep(recent: seq<Key>, k: Key, others: set<Key>, x: Key)
    requires NoDuplicates(recent) && |recent| <= RECENT_CACHE_CAP
    requires Behind(recent, k, others)
    ensures Behind(Remembered(recent, x), k, others + {x}) || |others + {x} - {k}| >= RECENT_CACHE_CAP
  {
    if x !in recent && recent[0] == k && |recent| == RECENT_CACHE_CAP {
      var grown := recent + [x];
      assert NoDuplicates(grown[1..]);
      forall y | y in Elements(grown[1..]) ensures y in others + {x} - {k} {
        var q :| 0 < q < |grown| && grown[q] == y;
      }
      DistinctCount(grown[1..], others + {x} - {k});
    } else if x !in recent {
      var grown := recent + [x];
      forall p, q | 0 <= p < q < |grown| && grown[p] == k ensures grown[q] in others + {x} {}
      var at :| 0 <= at < |recent| && recent[at] == k;
      assert grown[at] == k;
      if |recent| == RECENT_CACHE_CAP {
        assert grown[1..][at - 1] == k;
      }
    }
  }

  /** An inserted key is still cached, in front of later ones only, or 32 others have come since. */
  lemma {:induction false} CachedOrOverrun(keys: seq<Key>, i: nat)
    requires i < |keys| && keys[i] !in Cache(keys[..i])
    ensures Behind(Cache(keys), keys[i], OthersSince(keys, i)) || |OthersSince(keys, i)| >= RECENT_CACHE_CAP
  {
    var front, k, x := keys[..|keys| - 1], keys[i], keys[|keys| - 1];
    CacheFits(front);
    assert Cache(keys) == Remembered(Cache(front), x);
    hide Cache, Remembered, Behind;
    if i == |keys| - 1 {
      RememberedFits(Cache(front), x);
      InsertedLast(Cache(front), k);
      assert OthersSince(keys, i) == {};
    } else {
      OthersGrow(keys, i);
      CachedOrOverrun(front, i);
      OverrunStep(Cache(front), k, OthersSince(front, i), x);
    }
  }

  lemma OverrunStep(recent: seq<Key>, k: Key, others: set<Key>, x: Key)
    requires NoDuplicates(recent) && |recent| <= RECENT_CACHE_CAP && k !in others
    requires Behind(recent, k, others) || |others| >= RECENT_CACHE_CAP
    ensures Behind(Remembered(recent, x), k, others + {x} - {k}) || |others + {x} - {k}| >= RECENT_CACHE_CAP
  {
    hide Behind, Remembered;
    if |others| >= RECENT_CACHE_CAP {
      assert others + {x} - {k} == others + ({x} - {k} - others);
    } else {
      BehindStep(recent, k, others, x);
      RememberedFits(recent, x);
      BehindOthers(Remembered(recent, x), k, others + {x});
    }
  }

  lemma InsertedLast(recent: seq<Key>, k: Key)
    requires k !in recent && NoDuplicates(Remembered(recent, k))
    ensures Behind(Remembered(recent, k), k, {})
  {
    var r := Remembered(recent, k);
    assert r[|r| - 1] == k;
  }

  lemma BehindOthers(recent: seq<Key>, k: Key, others: set<Key>)
    requires NoDuplicates(recent)
    ensures Behind(recent, k, others) ==> Behind(recent, k, others - {k})
  {
  }

  /** A key is forgotten only after 32 pairwise distinct other keys have been remembered since it was inserted. */
  lemma ForgottenOnlyAfter32Others(keys: seq<Key>, i: nat)
    requires i < |keys| && keys[i] !in Cache(keys[..i]) && keys[i] !in Cache(keys)
    ensures |OthersSince(keys, i)| >= RECENT_CACHE_CAP
  {
    hide Cache;
    CachedOrOverrun(keys, i);
  }
}
