/** The header collections the middleware reads and writes: Starlette's
    `Headers` (an ordered list of name/value pairs, looked up
    case-insensitively, first match wins) and `MutableHeaders.__setitem__`
    (overwrite the first match in place, drop later matches, append when
    there is none). */
module Headers {
  import opened Options
  import opened Ascii

  datatype Header = Header(name: string, value: string)

  /** Header names compare case-insensitively. */
  predicate SameName(a: string, b: string) { Lower(a) == Lower(b) }

  /** `headers.get(key)`: the value of the first entry named `key`. */
  function Get(h: seq<Header>, key: string): (r: Option<string>)
    ensures r.None? <==> forall i :: 0 <= i < |h| ==> !SameName(h[i].name, key)
    ensures r.Some? ==> exists i :: 0 <= i < |h| && SameName(h[i].name, key) && h[i].value == r.value
                                    && forall j :: 0 <= j < i ==> !SameName(h[j].name, key)
    decreases |h|
  {
    if h == [] then None
    else if SameName(h[0].name, key) then Some(h[0].value)
    else
      var r := Get(h[1..], key);
      assert forall i :: 1 <= i < |h| ==> h[i] == h[1..][i - 1];
      r
  }

  /** How many entries are named `key`. */
  function Occurrences(h: seq<Header>, key: string): nat
    decreases |h|
  {
    if h == [] then 0 else (if SameName(h[0].name, key) then 1 else 0) + Occurrences(h[1..], key)
  }

  /** The entries not named `key`, in order. */
  function Others(h: seq<Header>, key: string): seq<Header>
    decreases |h|
  {
    if h == [] then [] else (if SameName(h[0].name, key) then [] else [h[0]]) + Others(h[1..], key)
  }

  /** The walk behind `MutableHeaders.__setitem__`: the first entry named
      `key` is overwritten, later ones are deleted, and when the walk ends
      without having placed the value it is appended. */
  function Place(h: seq<Header>, key: string, value: string, placed: bool): seq<Header>
    decreases |h|
  {
    if h == [] then (if placed then [] else [Header(Lower(key), value)])
    else if SameName(h[0].name, key) then
      (if placed then [] else [Header(Lower(key), value)]) + Place(h[1..], key, value, true)
    else [h[0]] + Place(h[1..], key, value, placed)
  }

  /** `response.headers[key] = value`. */
  function Set(h: seq<Header>, key: string, value: string): seq<Header>
  {
    Place(h, key, value, false)
  }

  lemma StoredNameMatches(key: string)
    ensures SameName(Lower(key), key)
  {
    LowerIdempotent(key);
  }

  lemma {:induction false} PlaceMatches(h: seq<Header>, key: string, value: string, placed: bool)
    ensures Occurrences(Place(h, key, value, placed), key) == if placed then 0 else 1
    ensures !placed ==> Get(Place(h, key, value, placed), key) == Some(value)
    ensures placed ==> Get(Place(h, key, value, placed), key) == None
    decreases |h|
  {
    StoredNameMatches(key);
    var entry := [Header(Lower(key), value)];
    if h == [] {
      assert entry[1..] == [];
    } else {
      PlaceMatches(h[1..], key, value, true);
      PlaceMatches(h[1..], key, value, placed);
      var rest := if SameName(h[0].name, key) then Place(h[1..], key, value, true) else Place(h[1..], key, value, placed);
      var r := Place(h, key, value, placed);
      if SameName(h[0].name, key) {
        if !placed {
          assert r == entry + rest && r[0] == entry[0] && r[1..] == rest;
        } else {
          assert r == rest;
        }
      } else {
        assert r == [h[0]] + rest && r[0] == h[0] && r[1..] == rest;
      }
    }
  }

  lemma {:induction false} PlaceKeepsOthers(h: seq<Header>, key: string, value: string, placed: bool)
    ensures Others(Place(h, key, value, placed), key) == Others(h, key)
    decreases |h|
  {
    StoredNameMatches(key);
    var entry := [Header(Lower(key), value)];
    if h == [] {
      if !placed {
        assert entry[1..] == [];
      }
    } else {
      var r := Place(h, key, value, placed);
      if SameName(h[0].name, key) {
        PlaceKeepsOthers(h[1..], key, value, true);
        var rest := Place(h[1..], key, value, true);
        if !placed {
          assert r == entry + rest && r[0] == entry[0] && r[1..] == rest;
        } else {
          assert r == rest;
        }
      } else {
        PlaceKeepsOthers(h[1..], key, value, placed);
        var rest := Place(h[1..], key, value, placed);
        assert r == [h[0]] + rest && r[0] == h[0] && r[1..] == rest;
      }
    }
  }

  lemma {:induction false} PlaceKeepsLookups(h: seq<Header>, key: string, value: string, placed: bool, other: string)
    requires !SameName(other, key)
    ensures Get(Place(h, key, value, placed), other) == Get(h, other)
    decreases |h|
  {
    StoredNameMatches(key);
    assert !SameName(Lower(key), other);
    var entry := [Header(Lower(key), value)];
    if h == [] {
      if !placed {
        assert entry[1..] == [];
      }
    } else {
      var r := Place(h, key, value, placed);
      if SameName(h[0].name, key) {
        assert !SameName(h[0].name, other);
        PlaceKeepsLookups(h[1..], key, value, true, other);
        var rest := Place(h[1..], key, value, true);
        if !placed {
          assert r == entry + rest && r[0] == entry[0] && r[1..] == rest;
        } else {
          assert r == rest;
        }
      } else {
        PlaceKeepsLookups(h[1..], key, value, placed, other);
        var rest := Place(h[1..], key, value, placed);
        assert r == [h[0]] + rest && r[0] == h[0] && r[1..] == rest;
      }
    }
  }

  /** After `h[key] = value`: reading `key` gives `value`, exactly one entry
      carries that name, and every other entry is still there, in order, so
      every other lookup is unchanged. */
  lemma SetSpec(h: seq<Header>, key: string, value: string)
    ensures Get(Set(h, key, value), key) == Some(value)
    ensures Occurrences(Set(h, key, value), key) == 1
    ensures Others(Set(h, key, value), key) == Others(h, key)
    ensures forall other :: !SameName(other, key) ==> Get(Set(h, key, value), other) == Get(h, other)
  {
    PlaceMatches(h, key, value, false);
    PlaceKeepsOthers(h, key, value, false);
    forall other | !SameName(other, key)
      ensures Get(Set(h, key, value), other) == Get(h, other)
    {
      PlaceKeepsLookups(h, key, value, false, other);
    }
  }

  /** Dropping two names gives the same list in either order. */
  lemma {:induction false} OthersCommute(h: seq<Header>, a: string, b: string)
    ensures Others(Others(h, a), b) == Others(Others(h, b), a)
    decreases |h|
  {
    if h != [] {
      OthersCommute(h[1..], a, b);
      var x := [h[0]];
      OthersOfAppend(if SameName(h[0].name, a) then [] else x, Others(h[1..], a), b);
      OthersOfAppend(if SameName(h[0].name, b) then [] else x, Others(h[1..], b), a);
      OthersOfSingle(h[0], a);
      OthersOfSingle(h[0], b);
    }
  }

  lemma {:induction false} OthersOfAppend(x: seq<Header>, y: seq<Header>, key: string)
    ensures Others(x + y, key) == Others(x, key) + Others(y, key)
    decreases |x|
  {
    if x == [] {
      assert x + y == y;
    } else {
      assert (x + y)[1..] == x[1..] + y;
      OthersOfAppend(x[1..], y, key);
    }
  }

  /** Dropping the entries named `b` leaves the count of a different name. */
  lemma {:induction false} OccurrencesOfOthers(h: seq<Header>, a: string, b: string)
    requires !SameName(a, b)
    ensures Occurrences(Others(h, b), a) == Occurrences(h, a)
    decreases |h|
  {
    if h != [] {
      OccurrencesOfOthers(h[1..], a, b);
      var x := if SameName(h[0].name, b) then [] else [h[0]];
      var o := x + Others(h[1..], b);
      if x != [] {
        assert o[0] == h[0] && o[1..] == Others(h[1..], b);
      } else {
        assert !SameName(h[0].name, a);
        assert o == Others(h[1..], b);
      }
    }
  }

  lemma OthersOfSingle(e: Header, key: string)
    ensures Others([e], key) == if SameName(e.name, key) then [] else [e]
  {
    assert [e][1..] == [];
  }
}
