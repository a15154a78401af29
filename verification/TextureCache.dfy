/** The cache of imported camera textures, least recently used first out. */
module TextureCache {

  import opened Collections

  // ---------- recency

  /** The list without the id. */
  function Without(ids: seq<nat>, id: nat): seq<nat> {
    if ids == [] then [] else if ids[0] == id then Without(ids[1..], id) else [ids[0]] + Without(ids[1..], id)
  }

  /** All ids ever used, each once, the last used first. */
  function Recency(history: seq<nat>): seq<nat> {
    if history == [] then [] else
    var last := history[|history| - 1];
    [last] + Without(Recency(history[..|history| - 1]), last)
  }

  function Take(ids: seq<nat>, n: nat): (r: seq<nat>) {
    if |ids| <= n then ids else ids[..n]
  }

  lemma {:induction false} WithoutKeeps(ids: seq<nat>, id: nat)
    ensures forall x :: x in Without(ids, id) <==> x in ids && x != id
    ensures Distinct(ids) ==> Distinct(Without(ids, id))
    ensures |Without(ids, id)| <= |ids|
    ensures id !in ids ==> Without(ids, id) == ids
    ensures Distinct(ids) && id in ids ==> |Without(ids, id)| == |ids| - 1
  {
    if ids != [] {
      WithoutKeeps(ids[1..], id);
      assert ids == [ids[0]] + ids[1..];
      if Distinct(ids) {
        assert ids[0] !in ids[1..];
      }
    }
  }

  lemma {:induction false} RecencyIsDistinct(history: seq<nat>)
    ensures Distinct(Recency(history)) && forall x :: x in Recency(history) <==> x in history
  {
    if history != [] {
      var front, last := history[..|history| - 1], history[|history| - 1];
      RecencyIsDistinct(front);
      WithoutKeeps(Recency(front), last);
      assert history == front + [last];
    }
  }

  /** x was used after every use of y. */
  ghost predicate UsedAfter(history: seq<nat>, x: nat, y: nat) {
    exists k :: 0 <= k < |history| && history[k] == x && y !in history[k..]
  }

  lemma UsedAfterGrows(history: seq<nat>, id: nat, x: nat, y: nat)
    requires UsedAfter(history, x, y) && y != id
    ensures UsedAfter(history + [id], x, y)
  {
    var k :| 0 <= k < |history| && history[k] == x && y !in history[k..];
    assert (history + [id])[k..] == history[k..] + [id];
  }

  lemma LastUsedAfterAll(history: seq<nat>, id: nat, y: nat)
    requires y != id
    ensures UsedAfter(history + [id], id, y)
  {
    var all := history + [id];
    assert all[|history|..] == [id];
    assert all[|history|] == id;
  }

  lemma OrderedWithLast(front: seq<nat>, rest: seq<nat>, last: nat)
    requires Ordered(front, rest) && last !in rest
    ensures Ordered(front + [last], [last] + rest)
  {
    hide UsedAfter;
    var all := [last] + rest;
    forall i, j | 0 <= i < j < |all| ensures UsedAfter(front + [last], all[i], all[j]) {
      assert all[j] == rest[j - 1] && rest[j - 1] in rest;
      if i == 0 {
        LastUsedAfterAll(front, last, all[j]);
      } else {
        UsedAfterGrows(front, last, rest[i - 1], rest[j - 1]);
      }
    }
  }

  /** The recency list is in the order of the last uses. */
  lemma {:induction false} RecencyIsOrdered(history: seq<nat>)
    ensures Ordered(history, Recency(history))
  {
    if history != [] {
      var front, last := history[..|history| - 1], history[|history| - 1];
      RecencyIsOrdered(front);
      hide Ordered, Without;
      assert history == front + [last];
      WithoutKeeps(Recency(front), last);
      WithoutOrdered(front, Recency(front), last);
      OrderedWithLast(front, Without(Recency(front), last), last);
    }
  }

  ghost predicate Ordered(history: seq<nat>, ids: seq<nat>) {
    forall i, j :: 0 <= i < j < |ids| ==> UsedAfter(history, ids[i], ids[j])
  }

  lemma {:induction false} WithoutOrdered(history: seq<nat>, ids: seq<nat>, id: nat)
    requires Ordered(history, ids)
    ensures Ordered(history, Without(ids, id))
  {
    hide UsedAfter;
    if ids != [] {
      WithoutOrdered(history, ids[1..], id);
      WithoutKeeps(ids[1..], id);
      if ids[0] != id {
        var rest := Without(ids[1..], id);
        forall j | 0 <= j < |rest| ensures UsedAfter(history, ids[0], rest[j]) {
          assert rest[j] in rest;
          var k :| 0 <= k < |ids[1..]| && ids[1..][k] == rest[j];
          assert ids[k + 1] == rest[j];
        }
      }
    }
  }

  /** Dropping an id and cutting to n - 1 is cutting to n and dropping it, when it is among the first n. */
  lemma {:induction false} TakeWithout(ids: seq<nat>, id: nat, n: nat)
    requires Distinct(ids) && n > 0
    ensures id in Take(ids, n) ==> Take(Without(ids, id), n - 1) == Without(Take(ids, n), id)
    ensures id !in Take(ids, n) ==> Take(Without(ids, id), n - 1) == Take(ids, n - 1)
    decreases |ids|
  {
    if ids == [] {
    } else {
      hide Take, Distinct;
      TailIsDistinct(ids);
      var first, rest := ids[0], ids[1..];
      assert ids == [first] + rest;
      TakeFirst(first, rest, n);
      WithoutFirst(first, rest, id);
      if first == id {
        WithoutKeeps(rest, id);
        TakeKeeps(rest, n - 1);
        WithoutKeeps(Take(rest, n - 1), id);
        WithoutFirst(first, Take(rest, n - 1), id);
      } else if n > 1 {
        TakeWithout(rest, id, n - 1);
        TakeFirst(first, Without(rest, id), n - 1);
        TakeFirst(first, rest, n - 1);
        WithoutFirst(first, Take(rest, n - 1), id);
      } else {
        TakeNothing(rest);
        TakeNothing(ids);
        TakeNothing(Without(ids, id));
      }
    }
  }

  lemma TailIsDistinct(ids: seq<nat>)
    requires Distinct(ids) && ids != []
    ensures Distinct(ids[1..]) && ids[0] !in ids[1..]
  {
  }

  lemma TakeFirst(first: nat, rest: seq<nat>, n: nat)
    requires n > 0
    ensures Take([first] + rest, n) == [first] + Take(rest, n - 1)
  {
  }

  lemma TakeNothing(ids: seq<nat>)
    ensures Take(ids, 0) == []
  {
  }

  lemma TakeKeeps(ids: seq<nat>, n: nat)
    ensures forall x :: x in Take(ids, n) ==> x in ids
  {
  }

  lemma WithoutFirst(first: nat, rest: seq<nat>, id: nat)
    ensures Without([first] + rest, id) == if first == id then Without(rest, id) else [first] + Without(rest, id)
  {
    assert ([first] + rest)[1..] == rest;
  }

  /** One more use: the cached ids before decide the cached ids after. */
  lemma OneMoreUse(history: seq<nat>, id: nat, n: nat)
    requires n > 0
    ensures var before := Take(Recency(history), n);
      Take(Recency(history + [id]), n) == if id in before then [id] + Without(before, id)
        else [id] + Take(before, n - 1)
  {
    RecencyIsDistinct(history);
    assert (history + [id])[..|history|] == history;
    var r := Recency(history);
    TakeWithout(r, id, n);
    assert Take([id] + Without(r, id), n) == [id] + Take(Without(r, id), n - 1);
    assert Take(Take(r, n), n - 1) == Take(r, n - 1);
  }

  // ---------- the cache

  class Entry<V> {
    const id: nat
    const views: V

    constructor (i: nat, v: V)
      ensures id == i && views == v
    {
      id, views := i, v;
    }
  }

  function IdsOf<V>(es: seq<Entry<V>>): (ids: seq<nat>)
    ensures |ids| == |es| && forall i :: 0 <= i < |es| ==> ids[i] == es[i].id
  {
    seq(|es|, i requires 0 <= i < |es| => es[i].id)
  }

  /** The index has exactly the nodes of the list, each under its own id. */
  ghost predicate Agree<V>(es: seq<Entry<V>>, index: map<nat, Entry<V>>) {
    && (forall id :: id in index ==> index[id] in es && index[id].id == id)
    && (forall i :: 0 <= i < |es| ==> es[i].id in index && index[es[i].id] == es[i])
  }

  /** Each node holds what its id was last imported as. */
  ghost predicate Imported<V>(es: seq<Entry<V>>, imported: map<nat, V>) {
    forall i :: 0 <= i < |es| ==> es[i].id in imported && es[i].views == imported[es[i].id]
  }

  class CameraTextureImporter<V> {
    const maxEntries: nat
    var enabled: bool
    var lru: seq<Entry<V>>
    var index: map<nat, Entry<V>>
    var hits: nat
    var misses: nat
    /** The ids of all frames served so far, and what each id was last imported as. */
    ghost var history: seq<nat>
    ghost var imported: map<nat, V>

    /** While enabled, the list holds the last used ids in order and the index points to its nodes; otherwise both are
        empty. */
    ghost predicate Valid()
      reads this
    {
      && maxEntries > 0
      && (if enabled then IdsOf(lru) == Take(Recency(history), maxEntries) else lru == [])
      && Agree(lru, index) && Imported(lru, imported)
    }

    constructor (limit: nat, available: bool)
      ensures Valid() && enabled == available && lru == [] && maxEntries == if limit == 0 then 1 else limit
      ensures history == [] && hits == misses == 0
    {
      maxEntries := if limit == 0 then 1 else limit;
      enabled, lru, index, hits, misses := available, [], map[], 0, 0;
      history, imported := [], map[];
    }

    method Disable()
      requires Valid()
      modifies this
      ensures Valid() && !enabled && lru == [] && index == map[]
      ensures hits == old(hits) && misses == old(misses) && history == old(history) && imported == old(imported)
    {
      enabled := false;
      lru, index := [], map[];
    }

    /** Views for the frame's texture. tag is the id the driver gives it, fresh what an import would yield; either can
        fail, and the first failure ends caching for good. */
    method Acquire(frameValid: bool, tag: Option<nat>, loaded: Option<V>) returns (r: Option<V>)
      requires Valid()
      modifies this
      ensures Valid()
      ensures !old(enabled) ==> r.None? && !enabled && lru == [] && index == map[]
      ensures !frameValid ==> r.None? && enabled == old(enabled) && lru == old(lru) && index == old(index)
      ensures r.None? ==>
        history == old(history) && imported == old(imported) && hits == old(hits) && misses == old(misses)
      ensures r.None? && old(enabled) && frameValid ==>
        !enabled && (tag.None? || (tag.value !in old(index) && loaded.None?))
      ensures r.Some? ==> old(enabled) && enabled && tag.Some? && history == old(history) + [tag.value]
      ensures r.Some? ==> tag.value in imported && r.value == imported[tag.value] && tag.value in index
      ensures r.Some? && tag.value in old(index) ==>
        imported == old(imported) && index == old(index) && hits == old(hits) + 1 && misses == old(misses)
      ensures r.Some? && tag.value !in old(index) ==>
        loaded == Some(r.value) && imported == old(imported)[tag.value := r.value]
        && hits == old(hits) && misses == old(misses) + 1
    {
      if !enabled || !frameValid {
        return None;
      }
      if tag.None? {
        Disable();
        return None;
      }
      var id := tag.value;
      if id in index {
        var views := Hit(id);
        return Some(views);
      }
      if loaded.None? {
        Disable();
        return None;
      }
      Miss(id, loaded.value);
      r := loaded;
    }

    /** Moves the node to the front. */
    method Hit(id: nat) returns (views: V)
      requires Valid() && enabled && id in index
      modifies this
      ensures Valid() && enabled && index == old(index) && imported == old(imported) && history == old(history) + [id]
      ensures id in imported && views == imported[id] && hits == old(hits) + 1 && misses == old(misses)
    {
      hide Recency, Take, Agree, Imported, Without, IdsOf, Unlinked;
      Listed(lru, index, id);
      var entry := index[id];
      ListedImport(lru, imported, entry);
      OneMoreUse(history, id, maxEntries);
      IdsWithout(lru, id);
      MovedAgrees(lru, index, imported, id);
      IdsInFront(entry, Unlinked(lru, id));
      lru := [entry] + Unlinked(lru, id);
      hits := hits + 1;
      history := history + [id];
      views := entry.views;
    }

    /** A new node at the front; the last ones go. */
    method Miss(id: nat, views: V)
      requires Valid() && enabled && id !in index
      modifies this
      ensures Valid() && enabled && imported == old(imported)[id := views] && history == old(history) + [id]
      ensures id in index && hits == old(hits) && misses == old(misses) + 1
    {
      hide Recency, Agree, Without, IdsOf, Imported, Distinct;
      OneMoreUse(history, id, maxEntries);
      RecencyIsDistinct(history);
      TakeIsDistinct(Recency(history), maxEntries);
      ghost var before := IdsOf(lru);
      NotListed(lru, index, id);
      misses := misses + 1;
      var entry := new Entry(id, views);
      NewAgrees(lru, index, imported, entry);
      IdsInFront(entry, lru);
      ghost var longer := [entry] + lru;
      NewIsDistinct(id, before);
      lru := [entry] + lru;
      index := index[id := entry];
      Evict();
      history, imported := history + [id], imported[id := views];
      IdsOfFront(longer, maxEntries);
      ImportedFront(longer, imported, maxEntries);
      FrontIsIndexed(lru, index);
      TakeAgain(id, before, maxEntries);
    }

    /** Drops the last nodes, and their entries, until the list is no longer than allowed. */
    method Evict()
      requires Agree(lru, index) && Distinct(IdsOf(lru)) && maxEntries > 0
      modifies this`lru, this`index
      ensures lru == if |old(lru)| <= maxEntries then old(lru) else old(lru)[..maxEntries]
      ensures Agree(lru, index)
    {
      hide Agree, IdsOf, Distinct;
      ghost var was := lru;
      while |lru| > maxEntries
        invariant |lru| <= |was| && lru == was[..|lru|] && (|lru| >= maxEntries || lru == was)
        invariant Agree(lru, index)
        decreases |lru|
      {
        DroppedAgrees(lru, index, was);
        index := index - {lru[|lru| - 1].id};
        lru := lru[..|lru| - 1];
      }
    }
  }

  lemma IdsInFront<V>(e: Entry<V>, es: seq<Entry<V>>)
    ensures IdsOf([e] + es) == [e.id] + IdsOf(es)
  {
  }

  lemma NewIsDistinct(id: nat, ids: seq<nat>)
    requires Distinct(ids) && id !in ids
    ensures Distinct([id] + ids)
  {
  }

  lemma TakeIsDistinct(ids: seq<nat>, n: nat)
    requires Distinct(ids)
    ensures Distinct(Take(ids, n))
  {
  }

  lemma IdsOfFront<V>(es: seq<Entry<V>>, n: nat)
    ensures IdsOf(if |es| <= n then es else es[..n]) == Take(IdsOf(es), n)
  {
  }

  lemma ImportedFront<V>(es: seq<Entry<V>>, imported: map<nat, V>, n: nat)
    requires Imported(es, imported)
    ensures Imported(if |es| <= n then es else es[..n], imported)
  {
  }

  lemma FrontIsIndexed<V>(es: seq<Entry<V>>, index: map<nat, Entry<V>>)
    requires Agree(es, index) && |es| > 0
    ensures es[0].id in index
  {
  }

  /** Cutting once more, before the new id goes in front, changes nothing. */
  lemma TakeAgain(id: nat, ids: seq<nat>, n: nat)
    requires n > 0
    ensures Take([id] + ids, n) == [id] + Take(ids, n - 1)
  {
  }

  lemma NotListed<V>(es: seq<Entry<V>>, index: map<nat, Entry<V>>, id: nat)
    requires Agree(es, index) && id !in index
    ensures id !in IdsOf(es)
  {
  }

  /** The node of a cached id is in the list. */
  lemma Listed<V>(es: seq<Entry<V>>, index: map<nat, Entry<V>>, id: nat)
    requires Agree(es, index) && id in index
    ensures index[id] in es && index[id].id == id && id in IdsOf(es)
  {
    var k :| 0 <= k < |es| && es[k] == index[id];
    assert IdsOf(es)[k] == id;
  }

  lemma ListedImport<V>(es: seq<Entry<V>>, imported: map<nat, V>, e: Entry<V>)
    requires Imported(es, imported) && e in es
    ensures e.id in imported && e.views == imported[e.id]
  {
  }

  lemma MovedAgrees<V>(es: seq<Entry<V>>, index: map<nat, Entry<V>>, imported: map<nat, V>, id: nat)
    requires Agree(es, index) && Imported(es, imported) && id in index
    ensures Agree([index[id]] + Unlinked(es, id), index) && Imported([index[id]] + Unlinked(es, id), imported)
  {
    IdsWithout(es, id);
    var moved := [index[id]] + Unlinked(es, id);
    forall e | e in moved ensures e in es {
      if e == index[id] {
        Listed(es, index, id);
      } else {
        assert e in Unlinked(es, id);
        UnlinkedIn(es, id, e);
      }
    }
    forall i | 0 <= i < |moved|
      ensures moved[i].id in index && index[moved[i].id] == moved[i]
      ensures moved[i].id in imported && moved[i].views == imported[moved[i].id]
    {
      assert moved[i] in moved;
      var k :| 0 <= k < |es| && es[k] == moved[i];
    }
    forall x | x in index ensures index[x] in moved {
      if x != id {
        assert index[x] in Unlinked(es, id);
      } else {
        assert moved[0] == index[x];
      }
    }
  }

  lemma NewAgrees<V>(es: seq<Entry<V>>, index: map<nat, Entry<V>>, imported: map<nat, V>, entry: Entry<V>)
    requires Agree(es, index) && Imported(es, imported) && entry.id !in index
    ensures Agree([entry] + es, index[entry.id := entry]) && Imported([entry] + es, imported[entry.id := entry.views])
  {
    var longer := [entry] + es;
    forall i | 0 <= i < |longer|
      ensures longer[i].id in index[entry.id := entry] && index[entry.id := entry][longer[i].id] == longer[i]
      ensures longer[i].id in imported[entry.id := entry.views]
      ensures longer[i].views == imported[entry.id := entry.views][longer[i].id]
    {
      if i > 0 {
        assert longer[i] == es[i - 1];
      }
    }
  }

  lemma DroppedAgrees<V>(es: seq<Entry<V>>, index: map<nat, Entry<V>>, was: seq<Entry<V>>)
    requires Agree(es, index) && |es| > 0 && Distinct(IdsOf(was)) && |es| <= |was| && es == was[..|es|]
    ensures Agree(es[..|es| - 1], index - {es[|es| - 1].id})
  {
    var n := |es| - 1;
    forall i | 0 <= i < n ensures es[i].id != es[n].id {
      assert IdsOf(was)[i] == es[i].id && IdsOf(was)[n] == es[n].id;
    }
    forall x | x in index && x != es[n].id ensures index[x] in es[..n] {
      var k :| 0 <= k < |es| && es[k] == index[x];
      assert es[..n][k] == index[x];
    }
  }

  /** The list without the node of the id. */
  function Unlinked<V>(es: seq<Entry<V>>, id: nat): seq<Entry<V>> {
    if es == [] then [] else if es[0].id == id then Unlinked(es[1..], id) else [es[0]] + Unlinked(es[1..], id)
  }

  lemma {:induction false} UnlinkedIn<V>(es: seq<Entry<V>>, id: nat, e: Entry<V>)
    requires e in Unlinked(es, id)
    ensures e in es && e.id != id
  {
    if es[0].id == id || e != es[0] {
      UnlinkedIn(es[1..], id, e);
    }
  }

  lemma {:induction false} IdsWithout<V>(es: seq<Entry<V>>, id: nat)
    ensures IdsOf(Unlinked(es, id)) == Without(IdsOf(es), id)
    ensures forall e :: e in Unlinked(es, id) <==> e in es && e.id != id
  {
    if es != [] {
      IdsWithout(es[1..], id);
      assert IdsOf(es)[1..] == IdsOf(es[1..]);
      assert es == [es[0]] + es[1..];
    }
  }
}
