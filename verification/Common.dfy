/** Small shared vocabulary: options, truth values as numbers, and counting over maps. */
module Common {

  type Byte = x: int | 0 <= x < 256
  type Bytes = seq<Byte>

  const KEY_LEN := 32   // a raw node key

  datatype Option<+T> = None | Some(value: T)

  /** One when the condition holds, zero otherwise. */
  ghost function One(b: bool): nat {
    if b then 1 else 0
  }

  ghost predicate NoDuplicates<T>(s: seq<T>) {
    forall i, j :: 0 <= i < j < |s| ==> s[i] != s[j]
  }

  /** The keys of m whose value satisfies p, and how many there are. */
  ghost function Matching<K, V>(m: map<K, V>, p: V -> bool): set<K> {
    set k | k in m && p(m[k])
  }

  ghost function Tally<K, V>(m: map<K, V>, p: V -> bool): nat {
    |Matching(m, p)|
  }

  lemma MatchingUpdate<K, V>(m: map<K, V>, k: K, v: V, p: V -> bool)
    ensures Matching(m[k := v], p) == if p(v) then Matching(m, p) + {k} else Matching(m, p) - {k}
  {
    var before, after := Matching(m, p), Matching(m[k := v], p);
    var goal := if p(v) then before + {k} else before - {k};
    forall x: K ensures x in after <==> x in goal {}
  }

  /** Rewriting one entry changes the tally by that entry's own contribution only. */
  lemma TallyUpdate<K, V>(m: map<K, V>, k: K, v: V, p: V -> bool)
    ensures Tally(m[k := v], p) == Tally(m, p) - One(k in m && p(m[k])) + One(p(v))
  {
    MatchingUpdate(m, k, v, p);
  }

  /** An entry that satisfies p is counted, and two of them are counted twice. */
  lemma TallyWitness<K, V>(m: map<K, V>, k: K, k': K, p: V -> bool)
    requires k in m && k' in m && p(m[k]) && p(m[k'])
    ensures Tally(m, p) >= 1
    ensures k != k' ==> Tally(m, p) >= 2
  {
    SubsetSize({k, k'}, Matching(m, p));
  }

  lemma SubsetSize<T>(a: set<T>, b: set<T>)
    requires a <= b
    ensures |a| <= |b|
  {
    assert b == a + (b - a);
  }
}
