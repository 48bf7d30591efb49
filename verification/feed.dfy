/**
 A watch-fed copy of a map: every change of the map posts the new state of its key, and the
 copy learns states in the order in which they were posted. It may fall behind by any number
 of states and may skip some of them, but it never goes back.
 */
module Feed {
  import opened Text

  // The states of a key that the copy has not learned yet, oldest first; None is a deletion.
  function Pending<K, V>(news: map<K, seq<Option<V>>>, k: K): seq<Option<V>> {
    if k in news then news[k] else []
  }

  function Post<K, V>(news: map<K, seq<Option<V>>>, k: K, state: Option<V>): map<K, seq<Option<V>>> {
    news[k := Pending(news, k) + [state]]
  }

  function Lookup<K, V>(m: map<K, V>, k: K): Option<V> {
    if k in m then Some(m[k]) else None
  }

  function Put<K, V>(m: map<K, V>, k: K, state: Option<V>): map<K, V> {
    if state.Some? then m[k := state.value] else m - {k}
  }

  // The copy after it has learned pending state n, and what is then still to be learned.
  function Learn<K, V>(copy: map<K, V>, news: map<K, seq<Option<V>>>, k: K, n: nat): map<K, V> {
    if n < |Pending(news, k)| then Put(copy, k, Pending(news, k)[n]) else copy
  }

  function Rest<K, V>(news: map<K, seq<Option<V>>>, k: K, n: nat): map<K, seq<Option<V>>> {
    if n < |Pending(news, k)| then news[k := Pending(news, k)[n + 1..]] else news
  }

  // v is still to be learned for k.
  predicate Heard<K, V(==)>(news: map<K, seq<Option<V>>>, k: K, v: V) {
    k in news && Some(v) in news[k]
  }

  lemma HeardPost<K, V>(news: map<K, seq<Option<V>>>, k: K, state: Option<V>, j: K, v: V)
    ensures Heard(Post(news, k, state), j, v) <==> Heard(news, j, v) || (j == k && state == Some(v))
  {
  }

  lemma HeardRest<K, V>(news: map<K, seq<Option<V>>>, k: K, n: nat, j: K, v: V)
    requires Heard(Rest(news, k, n), j, v)
    ensures Heard(news, j, v)
  {
  }

  lemma Learned<K, V>(copy: map<K, V>, news: map<K, seq<Option<V>>>, k: K, n: nat, j: K)
    requires j in Learn(copy, news, k, n)
    ensures var v := Learn(copy, news, k, n)[j]; (j in copy && v == copy[j]) || (j == k && Heard(news, k, v))
  {
    if n < |Pending(news, k)| {
      assert Pending(news, k)[n] in Pending(news, k);
    }
  }

  // ----- In step -----

  function Newest<K, V>(copy: map<K, V>, news: map<K, seq<Option<V>>>, k: K): Option<V> {
    var p := Pending(news, k);
    if p == [] then Lookup(copy, k) else p[|p| - 1]
  }

  // What the copy would show of a key, having learned everything, is its current state.
  ghost predicate InStep<K(!new), V>(truth: map<K, V>, copy: map<K, V>, news: map<K, seq<Option<V>>>) {
    forall k :: Newest(copy, news, k) == Lookup(truth, k)
  }

  lemma InStepPost<K(!new), V>(truth: map<K, V>, copy: map<K, V>, news: map<K, seq<Option<V>>>, k: K, state: Option<V>)
    requires InStep(truth, copy, news)
    ensures InStep(Put(truth, k, state), copy, Post(news, k, state))
  {
    forall j
      ensures Newest(copy, Post(news, k, state), j) == Lookup(Put(truth, k, state), j)
    {
      assert Newest(copy, news, j) == Lookup(truth, j);
    }
  }

  lemma InStepLearn<K(!new), V>(truth: map<K, V>, copy: map<K, V>, news: map<K, seq<Option<V>>>, k: K, n: nat)
    requires InStep(truth, copy, news)
    ensures InStep(truth, Learn(copy, news, k, n), Rest(news, k, n))
  {
    forall j
      ensures Newest(Learn(copy, news, k, n), Rest(news, k, n), j) == Lookup(truth, j)
    {
      assert Newest(copy, news, j) == Lookup(truth, j);
    }
  }

  // ----- Behind -----

  // Nothing was ever taken away or replaced since the copy was last right: all it shows and all
  // it has yet to learn is current.
  ghost predicate Behind<K(!new), V(!new)>(truth: map<K, V>, copy: map<K, V>, news: map<K, seq<Option<V>>>) {
    && (forall k :: k in copy ==> k in truth && copy[k] == truth[k])
    && (forall k, v :: Heard(news, k, v) ==> k in truth && v == truth[k])
    && NoneGone(news)
  }

  // No deletion is still to be learned.
  ghost predicate NoneGone<K, V>(news: map<K, seq<Option<V>>>) {
    forall k :: k in news ==> None !in news[k]
  }

  lemma BehindLearn<K(!new), V(!new)>(truth: map<K, V>, copy: map<K, V>, news: map<K, seq<Option<V>>>, k: K, n: nat)
    requires Behind(truth, copy, news)
    ensures Behind(truth, Learn(copy, news, k, n), Rest(news, k, n))
    ensures copy.Keys <= Learn(copy, news, k, n).Keys
  {
    NoneGoneRest(news, k, n);
    forall j, v | Heard(Rest(news, k, n), j, v)
      ensures j in truth && v == truth[j]
    {
      HeardRest(news, k, n, j, v);
    }
    forall j | j in Learn(copy, news, k, n)
      ensures j in truth && Learn(copy, news, k, n)[j] == truth[j]
    {
      Learned(copy, news, k, n, j);
    }
    if n < |Pending(news, k)| {
      assert Pending(news, k)[n] in news[k];
    }
  }

  lemma BehindPost<K(!new), V(!new)>(truth: map<K, V>, copy: map<K, V>, news: map<K, seq<Option<V>>>, k: K, v: V)
    requires Behind(truth, copy, news) && k !in truth
    ensures Behind(truth[k := v], copy, Post(news, k, Some(v)))
  {
    NoneGonePost(news, k, v);
    forall j, u | Heard(Post(news, k, Some(v)), j, u)
      ensures j in truth[k := v] && u == truth[k := v][j]
    {
      HeardPost(news, k, Some(v), j, u);
    }
  }

  lemma NoneGoneRest<K, V>(news: map<K, seq<Option<V>>>, k: K, n: nat)
    requires NoneGone(news)
    ensures NoneGone(Rest(news, k, n))
  {
  }

  lemma NoneGonePost<K, V>(news: map<K, seq<Option<V>>>, k: K, v: V)
    requires NoneGone(news)
    ensures NoneGone(Post(news, k, Some(v)))
  {
  }

  // Learning the last pending state makes the copy current.
  function LastNews<K, V>(news: map<K, seq<Option<V>>>, k: K): nat {
    if Pending(news, k) == [] then 0 else |Pending(news, k)| - 1
  }

  lemma LearnLatest<K(!new), V>(truth: map<K, V>, copy: map<K, V>, news: map<K, seq<Option<V>>>, k: K)
    requires InStep(truth, copy, news)
    ensures Lookup(Learn(copy, news, k, LastNews(news, k)), k) == Lookup(truth, k)
  {
    assert Newest(copy, news, k) == Lookup(truth, k);
  }
}
