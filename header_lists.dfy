/**
 * Header collections as the handler manipulates them. HTTP field names are
 * case-insensitive (RFC 9110, section 5.1); both the outbound `Headers`
 * object and Node's response-header store compare names that way, so a
 * collection is modelled as a map keyed by the ASCII-lower-cased name.
 * Writing an object literal or a parsed JSON object into one of them walks
 * the object's entries in order and sets each one.
 */
module HeaderLists {
  import opened Wrappers

  /** One `(name, value)` pair of an object, in `Object.entries` order. */
  type Entry = (string, string)

  /**
   * A header collection: lower-cased name to value. Collections the handler
   * meets keep `KeysLowered`; the lemmas below show every write preserves it.
   */
  type HeaderMap = map<string, string>

  /** Every key is a lower-cased name. */
  predicate KeysLowered(m: HeaderMap) {
    forall k | k in m :: Lower(k) == k
  }

  function LowerChar(c: char): char {
    if 'A' <= c <= 'Z' then (c as int + 32) as char else c
  }

  /** ASCII lower-casing, the normalisation header stores apply to names. */
  function Lower(s: string): (r: string)
    ensures |r| == |s|
    ensures forall i :: 0 <= i < |r| ==> !('A' <= r[i] <= 'Z')
    ensures forall i :: 0 <= i < |s| && !('A' <= s[i] <= 'Z') ==> r[i] == s[i]
    ensures forall i :: 0 <= i < |s| && 'A' <= s[i] <= 'Z' ==> r[i] == (s[i] as int + 32) as char
  {
    seq(|s|, i requires 0 <= i < |s| => LowerChar(s[i]))
  }

  /** Two characters that are equal or differ only as an ASCII letter's two cases. */
  predicate CaseVariant(c: char, d: char) {
    c == d
    || ('A' <= c <= 'Z' && d as int == c as int + 32)
    || ('A' <= d <= 'Z' && c as int == d as int + 32)
  }

  /** Two names that differ only in ASCII case. */
  predicate SameUpToCase(a: string, b: string) {
    |a| == |b| && forall i :: 0 <= i < |a| ==> CaseVariant(a[i], b[i])
  }

  /** Header stores key names by `Lower`: two names share a key exactly when they differ only in case. */
  lemma SameKeyIffSameUpToCase(a: string, b: string)
    ensures Lower(a) == Lower(b) <==> SameUpToCase(a, b)
  {
    if Lower(a) == Lower(b) {
      forall i | 0 <= i < |a| ensures CaseVariant(a[i], b[i]) {
        assert Lower(a)[i] == Lower(b)[i];
      }
    }
    if SameUpToCase(a, b) {
      forall i | 0 <= i < |a| ensures Lower(a)[i] == Lower(b)[i] {
        assert CaseVariant(a[i], b[i]);
      }
    }
  }

  /** Lower-casing a name twice changes nothing more. */
  lemma {:induction false} LowerIdempotent(s: string)
    ensures Lower(Lower(s)) == Lower(s)
  {
    var once := Lower(s);
    var twice := Lower(once);
    assert |twice| == |once|;
    forall i | 0 <= i < |once| ensures twice[i] == once[i] {
      assert twice[i] == LowerChar(once[i]) == once[i];
    }
  }

  /** The collection after setting every entry of `q` in order. */
  function Overlay(base: HeaderMap, q: seq<Entry>): HeaderMap
    decreases |q|
  {
    if q == [] then base else Overlay(base[Lower(q[0].0) := q[0].1], q[1..])
  }

  /** The lower-cased names of the entries. */
  function Names(q: seq<Entry>): set<string> {
    set i | 0 <= i < |q| :: Lower(q[i].0)
  }

  /** No two entries name the same header, up to case. */
  predicate DistinctNames(q: seq<Entry>) {
    forall i, j :: 0 <= i < j < |q| ==> Lower(q[i].0) != Lower(q[j].0)
  }

  /** Reference definition: the value of the last entry named `n` (up to case), if any. */
  function LastValue(q: seq<Entry>, n: string): Option<string>
    decreases |q|
  {
    if q == [] then None
    else if Lower(q[|q| - 1].0) == n then Some(q[|q| - 1].1)
    else LastValue(q[..|q| - 1], n)
  }

  /** `LastValue` finds exactly the last entry carrying the name. */
  lemma {:induction false} LastValueIsLastMatch(q: seq<Entry>, n: string)
    ensures LastValue(q, n).None? <==> n !in Names(q)
    ensures LastValue(q, n).Some? ==>
      exists i :: 0 <= i < |q| && Lower(q[i].0) == n && q[i].1 == LastValue(q, n).value
        && forall j :: i < j < |q| ==> Lower(q[j].0) != n
    decreases |q|
  {
    if q != [] {
      var init := q[..|q| - 1];
      LastValueIsLastMatch(init, n);
      assert Names(q) == Names(init) + {Lower(q[|q| - 1].0)} by {
        forall x | x in Names(q) ensures x in Names(init) + {Lower(q[|q| - 1].0)} {
          var i :| 0 <= i < |q| && Lower(q[i].0) == x;
          if i < |q| - 1 { assert init[i] == q[i]; }
        }
        forall x | x in Names(init) ensures x in Names(q) {
          var i :| 0 <= i < |init| && Lower(init[i].0) == x;
          assert q[i] == init[i];
        }
      }
      if Lower(q[|q| - 1].0) != n && LastValue(q, n).Some? {
        var i :| 0 <= i < |init| && Lower(init[i].0) == n && init[i].1 == LastValue(init, n).value
          && forall j :: i < j < |init| ==> Lower(init[j].0) != n;
        assert q[i] == init[i];
        forall j | i < j < |q| ensures Lower(q[j].0) != n {
          if j < |q| - 1 { assert q[j] == init[j]; }
        }
      }
    }
  }

  /** When names are distinct, an entry's own value is the last one for its name. */
  lemma {:induction false} DistinctLastValue(q: seq<Entry>, i: nat)
    requires DistinctNames(q)
    requires i < |q|
    ensures LastValue(q, Lower(q[i].0)) == Some(q[i].1)
    decreases |q|
  {
    if i < |q| - 1 {
      var init := q[..|q| - 1];
      assert init[i] == q[i];
      assert DistinctNames(init) by {
        forall a, b | 0 <= a < b < |init| ensures Lower(init[a].0) != Lower(init[b].0) {
          assert init[a] == q[a] && init[b] == q[b];
        }
      }
      DistinctLastValue(init, i);
    }
  }

  /** Setting one more entry at the end is one more map update. */
  lemma {:induction false} OverlaySnoc(base: HeaderMap, q: seq<Entry>, e: Entry)
    ensures Overlay(base, q + [e]) == Overlay(base, q)[Lower(e.0) := e.1]
    decreases |q|
  {
    if q == [] {
      assert [] + [e] == [e];
      assert [e][1..] == [];
    } else {
      assert (q + [e])[0] == q[0];
      assert (q + [e])[1..] == q[1..] + [e];
      OverlaySnoc(base[Lower(q[0].0) := q[0].1], q[1..], e);
    }
  }

  /** Setting `p` and then `q` is setting `p + q`. */
  lemma {:induction false} OverlayAppend(base: HeaderMap, p: seq<Entry>, q: seq<Entry>)
    ensures Overlay(base, p + q) == Overlay(Overlay(base, p), q)
    decreases |p|
  {
    if p == [] {
      assert [] + q == q;
    } else {
      assert (p + q)[0] == p[0];
      assert (p + q)[1..] == p[1..] + q;
      OverlayAppend(base[Lower(p[0].0) := p[0].1], p[1..], q);
    }
  }

  /** Every name of the overlay: the last entry for it wins, otherwise the base value stays. */
  lemma {:induction false} OverlayLookup(base: HeaderMap, q: seq<Entry>, n: string)
    ensures n in Overlay(base, q) <==> n in base || LastValue(q, n).Some?
    ensures LastValue(q, n).Some? ==> Overlay(base, q)[n] == LastValue(q, n).value
    ensures LastValue(q, n).None? && n in base ==> Overlay(base, q)[n] == base[n]
    decreases |q|
  {
    if q != [] {
      var init, e := q[..|q| - 1], q[|q| - 1];
      assert q == init + [e];
      OverlaySnoc(base, init, e);
      OverlayLookup(base, init, n);
    }
  }

  /** Setting entries adds exactly their names and no other key. */
  lemma OverlayKeys(base: HeaderMap, q: seq<Entry>)
    ensures Overlay(base, q).Keys == base.Keys + Names(q)
  {
    forall n ensures n in Overlay(base, q) <==> n in base || n in Names(q) {
      OverlayLookup(base, q, n);
      LastValueIsLastMatch(q, n);
    }
  }

  /** Setting entries on a collection with lower-cased keys keeps every key lower-cased. */
  lemma OverlayKeysLowered(base: HeaderMap, q: seq<Entry>)
    requires KeysLowered(base)
    ensures KeysLowered(Overlay(base, q))
  {
    OverlayKeys(base, q);
    forall k | k in Overlay(base, q) ensures Lower(k) == k {
      if k !in base {
        var i :| 0 <= i < |q| && Lower(q[i].0) == k;
        LowerIdempotent(q[i].0);
      }
    }
  }

  /** A collection with lower-cased keys never holds two names that differ only in case. */
  lemma NoCaseVariantKeys(m: HeaderMap, a: string, b: string)
    requires KeysLowered(m) && a in m && b in m
    requires SameUpToCase(a, b)
    ensures a == b
  {
    SameKeyIffSameUpToCase(a, b);
  }

  /** With distinct names, every entry's value is what the overlay holds for its name. */
  lemma EntryValueWins(base: HeaderMap, q: seq<Entry>, i: nat)
    requires DistinctNames(q)
    requires i < |q|
    ensures Lower(q[i].0) in Overlay(base, q)
    ensures Overlay(base, q)[Lower(q[i].0)] == q[i].1
  {
    DistinctLastValue(q, i);
    OverlayLookup(base, q, Lower(q[i].0));
  }

  /** A name that no entry sets keeps its base value. */
  lemma BaseValueKept(base: HeaderMap, q: seq<Entry>, n: string)
    requires n in base
    requires n !in Names(q)
    ensures n in Overlay(base, q) && Overlay(base, q)[n] == base[n]
  {
    LastValueIsLastMatch(q, n);
    OverlayLookup(base, q, n);
  }

  /**
   * A mutable header collection, the `Headers` object that the outbound
   * request is built in: `set(name, value)` replaces whatever is stored under
   * the name, compared without regard to case.
   */
  class HeaderStore {
    var entries: HeaderMap

    /** Every stored name is lower-cased. */
    ghost predicate Valid()
      reads this
    {
      KeysLowered(entries)
    }

    constructor (initial: HeaderMap)
      requires KeysLowered(initial)
      ensures Valid()
      ensures entries == initial
    {
      entries := initial;
    }

    method Set(name: string, value: string)
      requires Valid()
      modifies this
      ensures Valid()
      ensures entries == old(entries)[Lower(name) := value]
    {
      LowerIdempotent(name);
      entries := entries[Lower(name) := value];
    }
  }
}
