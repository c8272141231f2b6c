/**
 * Header maps as the source builds them: plain JavaScript objects whose own
 * properties are header names. An object keeps its keys in insertion order
 * (Node writes headers to the wire in that order), assigning to an existing
 * key overwrites the value in place, and `{...a, ...b}` copies the properties
 * of `a` and then assigns those of `b`.
 */
module HeaderObjects {
  import opened Wrappers

  /** One own property: a header name and its value. */
  datatype Entry = Entry(name: string, value: string)

  /** `h[name]`: the value of the first property called `name`, if there is one. */
  function Get(h: seq<Entry>, name: string): (r: Option<string>)
    ensures r.Some? ==> Entry(name, r.value) in h
  {
    if h == [] then None
    else if h[0].name == name then Some(h[0].value)
    else Get(h[1..], name)
  }

  /** `name in h`, compared exactly as JavaScript compares property keys. */
  predicate Has(h: seq<Entry>, name: string) {
    Get(h, name).Some?
  }

  /** No name occurs twice: a JavaScript object has at most one property per key. */
  predicate Distinct(h: seq<Entry>) {
    h == [] || (!Has(h[1..], h[0].name) && Distinct(h[1..]))
  }

  /** A header object, its properties in insertion order. */
  type Headers = h: seq<Entry> | Distinct(h) witness []

  /** `{[name]: value}`: an object with one property. */
  function Single(name: string, value: string): (h: Headers)
    ensures h == [Entry(name, value)]
  {
    var h := [Entry(name, value)];
    assert h[1..] == [];
    assert Get(h[1..], name) == None;
    assert Distinct(h[1..]);
    h
  }

  /** The keys in insertion order (`Object.keys`). */
  function Names(h: seq<Entry>): (r: seq<string>)
    ensures |r| == |h|
  {
    if h == [] then [] else [h[0].name] + Names(h[1..])
  }

  /** A key is present exactly when it is among the object's keys. */
  lemma {:induction false} HasNames(h: seq<Entry>, name: string)
    ensures Has(h, name) <==> name in Names(h)
  {
    if h != [] {
      HasNames(h[1..], name);
    }
  }

  /**
   * `h[name] = value`: an existing property keeps its position and takes the
   * new value; a new property is appended after all existing ones.
   */
  function Set(h: Headers, name: string, value: string): (r: Headers)
    ensures Get(r, name) == Some(value)
    ensures forall k :: k != name ==> Get(r, k) == Get(h, k)
    ensures Has(h, name) ==> Names(r) == Names(h)
    ensures !Has(h, name) ==> r == h + [Entry(name, value)]
  {
    if h == [] then Single(name, value)
    else if h[0].name == name then [Entry(name, value)] + h[1..]
    else
      var t := Set(h[1..], name, value);
      assert !Has(t, h[0].name) by {
        assert Get(t, h[0].name) == Get(h[1..], h[0].name);
      }
      var r := [h[0]] + t;
      assert r[1..] == t;
      assert !Has(h, name) ==> r == h + [Entry(name, value)] by {
        assert h == [h[0]] + h[1..];
      }
      r
  }

  /**
   * `{...a, ...b}`: every property of `b` overrides `a`, every other property
   * of `a` is kept.
   */
  function Spread(a: Headers, b: Headers): (r: Headers)
    ensures forall k :: Get(r, k) == if Has(b, k) then Get(b, k) else Get(a, k)
    decreases |b|
  {
    if b == [] then a
    else Spread(Set(a, b[0].name, b[0].value), b[1..])
  }

  /** The names of `ns` that are not in `seen`, in their order in `ns`. */
  function Fresh(ns: seq<string>, seen: seq<string>): (r: seq<string>)
    ensures forall n :: n in r ==> n in ns && n !in seen
  {
    if ns == [] then []
    else (if ns[0] in seen then [] else [ns[0]]) + Fresh(ns[1..], seen)
  }

  lemma {:induction false} FreshSkipsAbsent(ns: seq<string>, seen: seq<string>, x: string)
    requires x !in ns
    ensures Fresh(ns, seen + [x]) == Fresh(ns, seen)
  {
    if ns != [] {
      FreshSkipsAbsent(ns[1..], seen, x);
    }
  }

  /**
   * Key order of `{...a, ...b}`: the keys of `a` in their order, then the keys
   * of `b` that `a` lacks, in their order in `b`.
   */
  lemma {:induction false} SpreadNames(a: Headers, b: Headers)
    ensures Names(Spread(a, b)) == Names(a) + Fresh(Names(b), Names(a))
    decreases |b|
  {
    if b != [] {
      var a' := Set(a, b[0].name, b[0].value);
      SpreadNames(a', b[1..]);
      HasNames(a, b[0].name);
      if !Has(a, b[0].name) {
        HasNames(b[1..], b[0].name);
        FreshSkipsAbsent(Names(b[1..]), Names(a), b[0].name);
        assert Names(a') == Names(a) + [b[0].name] by {
          NamesAppend(a, b[0]);
        }
      }
    }
  }

  lemma {:induction false} NamesAppend(h: seq<Entry>, e: Entry)
    ensures Names(h + [e]) == Names(h) + [e.name]
  {
    if h != [] {
      assert (h + [e])[1..] == h[1..] + [e];
      NamesAppend(h[1..], e);
    }
  }

  lemma {:induction false} GetAppend(h: seq<Entry>, e: Entry, k: string)
    ensures Get(h + [e], k) == if Has(h, k) then Get(h, k) else if k == e.name then Some(e.value) else None
  {
    if h != [] {
      assert (h + [e])[1..] == h[1..] + [e];
      GetAppend(h[1..], e, k);
    }
  }

  /** No key of `b` is a key of `a`. */
  ghost predicate KeysDisjoint(a: seq<Entry>, b: seq<Entry>) {
    forall k :: Has(b, k) ==> !Has(a, k)
  }

  /** Spreading an object into one that shares none of its keys appends it. */
  lemma {:induction false} SpreadDisjoint(a: Headers, b: Headers)
    requires KeysDisjoint(a, b)
    ensures Spread(a, b) == a + b
    decreases |b|
  {
    if b != [] {
      var e := b[0];
      var a' := Set(a, e.name, e.value);
      DisjointStep(a, b);
      SpreadDisjoint(a', b[1..]);
      ConsAppend(a, b);
    }
  }

  lemma ConsAppend(a: seq<Entry>, b: seq<Entry>)
    requires b != []
    ensures (a + [b[0]]) + b[1..] == a + b
  {
  }

  lemma DisjointStep(a: Headers, b: Headers)
    requires b != []
    requires KeysDisjoint(a, b)
    ensures Set(a, b[0].name, b[0].value) == a + [b[0]]
    ensures KeysDisjoint(a + [b[0]], b[1..])
  {
    assert Has(b, b[0].name);
    forall k | Has(b[1..], k)
      ensures !Has(a + [b[0]], k)
    {
      assert k != b[0].name;
      assert Has(b, k);
      GetAppend(a, b[0], k);
    }
  }

  /** `{...h}` is a copy of `h`: the same properties in the same order. */
  lemma SpreadCopies(h: Headers)
    ensures Spread([], h) == h
  {
    SpreadDisjoint([], h);
  }
}
