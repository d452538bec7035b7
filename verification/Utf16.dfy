/**
 The key order of section 3.2.3 of RFC 8785: property names compare as arrays of UTF-16
 code units.  A Dafny `char` is a Unicode scalar value, as in the source's strings.
 */
module Utf16 {
  import opened Lru

  function Units(c: char): (r: seq<int>) {
    var v := c as int;
    if v < 0x10000 then [v]
    else [0xD800 + (v - 0x10000) / 0x400, 0xDC00 + (v - 0x10000) % 0x400]
  }

  function Encode(s: string): (r: seq<int>) {
    if s == [] then [] else Units(s[0]) + Encode(s[1..])
  }

  /** Reading code units back: a high surrogate and the low one behind it are one character (RFC 2781). */
  function Decode(u: seq<int>): (r: Option<string>)
    decreases |u|
  {
    if u == [] then Some("")
    else if 0 <= u[0] < 0xD800 || 0xE000 <= u[0] < 0x10000 then Then(u[0] as char, Decode(u[1..]))
    else if |u| > 1 && 0xD800 <= u[0] < 0xDC00 && 0xDC00 <= u[1] < 0xE000 then
      Then((0x10000 + (u[0] - 0xD800) * 0x400 + (u[1] - 0xDC00)) as char, Decode(u[2..]))
    else None
  }

  function Then(c: char, r: Option<string>): (q: Option<string>) {
    match r
    case None => None
    case Some(s) => Some([c] + s)
  }

  lemma UnitsAreReadBack(c: char, rest: seq<int>)
    ensures Decode(Units(c) + rest) == Then(c, Decode(rest))
  {
    var u := Units(c) + rest;
    if c as int < 0x10000 {
      assert u[0] == c as int && u[1..] == rest;
    } else {
      assert u[0] == Units(c)[0] && u[1] == Units(c)[1] && u[2..] == rest;
    }
  }

  /** Every string is read back from its code units. */
  lemma {:induction false} EncodeIsReadBack(s: string)
    ensures Decode(Encode(s)) == Some(s)
  {
    if s == [] {
    } else {
      UnitsAreReadBack(s[0], Encode(s[1..]));
      EncodeIsReadBack(s[1..]);
      assert s == [s[0]] + s[1..];
    }
  }

  lemma EncodeInjective(a: string, b: string)
    requires Encode(a) == Encode(b)
    ensures a == b
  {
    EncodeIsReadBack(a);
    EncodeIsReadBack(b);
  }

  predicate Lex(a: seq<int>, b: seq<int>) {
    b != [] && (a == [] || a[0] < b[0] || (a[0] == b[0] && Lex(a[1..], b[1..])))
  }

  /** `a` comes first: it is a proper prefix of `b`, or smaller at the first place where they differ. */
  ghost predicate Precedes(a: seq<int>, b: seq<int>) {
    exists n :: 0 <= n <= |a| && n < |b| && a[..n] == b[..n] && (n == |a| || a[n] < b[n])
  }

  lemma {:induction false} LexPrecedes(a: seq<int>, b: seq<int>)
    ensures Lex(a, b) <==> Precedes(a, b)
  {
    if b == [] {
    } else if a == [] || a[0] < b[0] {
      assert a[..0] == b[..0];
    } else {
      var u, v := a[1..], b[1..];
      LexPrecedes(u, v);
      if Lex(a, b) {
        var n :| 0 <= n <= |u| && n < |v| && u[..n] == v[..n] && (n == |u| || u[n] < v[n]);
        assert a[..n + 1] == [a[0]] + u[..n] && b[..n + 1] == [b[0]] + v[..n];
      }
      if Precedes(a, b) {
        var n :| 0 <= n <= |a| && n < |b| && a[..n] == b[..n] && (n == |a| || a[n] < b[n]);
        assert n > 0 && a[0] == a[..n][0] && b[0] == b[..n][0];
        assert a[1..][..n - 1] == a[..n][1..] && b[1..][..n - 1] == b[..n][1..];
      }
    }
  }

  lemma {:induction false} LexTotal(a: seq<int>, b: seq<int>)
    ensures Lex(a, b) || a == b || Lex(b, a)
    ensures !(Lex(a, b) && Lex(b, a)) && !Lex(a, a)
  {
    if a == [] {
    } else {
      LexTotal(a[1..], a[1..]);
    }
    if a == [] || b == [] {
    } else {
      LexTotal(a[1..], b[1..]);
      assert a == [a[0]] + a[1..] && b == [b[0]] + b[1..];
    }
  }

  lemma {:induction false} LexTransitive(a: seq<int>, b: seq<int>, c: seq<int>)
    requires Lex(a, b) && Lex(b, c)
    ensures Lex(a, c)
  {
    if a == [] || a[0] < b[0] || b[0] < c[0] {
    } else {
      LexTransitive(a[1..], b[1..], c[1..]);
    }
  }

  predicate Before(a: string, b: string) {
    Lex(Encode(a), Encode(b))
  }

  ghost predicate IsFirst(k: string, keys: set<string>) {
    k in keys && forall q :: q in keys && q != k ==> Before(k, q)
  }

  lemma {:induction false} FirstExists(keys: set<string>) returns (k: string)
    requires keys != {}
    ensures IsFirst(k, keys)
    decreases |keys|
  {
    var q :| q in keys;
    if keys == {q} {
      k := q;
    } else {
      var m := FirstExists(keys - {q});
      LexTotal(Encode(q), Encode(m));
      if Encode(q) == Encode(m) {
        EncodeInjective(q, m);
      }
      k := if Before(q, m) then q else m;
      forall o | o in keys && o != k ensures Before(k, o) {
        if k == q && o != m {
          assert o in keys - {q} && Before(m, o);
          LexTransitive(Encode(q), Encode(m), Encode(o));
        }
      }
    }
  }

  /** The keys in canonical order. */
  ghost function Sorted(keys: set<string>): (r: seq<string>)
    ensures forall k :: k in r <==> k in keys
    decreases |keys|
  {
    if keys == {} then []
    else
      assert exists k :: IsFirst(k, keys) by { var k := FirstExists(keys); }
      var k :| IsFirst(k, keys);
      [k] + Sorted(keys - {k})
  }

  lemma SortedDetermines(a: set<string>, b: set<string>)
    requires Sorted(a) == Sorted(b)
    ensures a == b
  {
    forall k ensures k in a <==> k in b {
      assert k in a <==> k in Sorted(a);
      assert k in b <==> k in Sorted(b);
    }
  }

  lemma SortedStep(keys: set<string>) returns (k: string)
    requires keys != {}
    ensures IsFirst(k, keys) && Sorted(keys) == [k] + Sorted(keys - {k})
  {
    k := Sorted(keys)[0];
    assert Sorted(keys)[1..] == Sorted(keys - {k});
  }

  ghost predicate Strict(r: seq<string>) {
    forall i, j :: 0 <= i < j < |r| ==> Before(r[i], r[j])
  }

  lemma StrictCons(k: string, r: seq<string>)
    requires Strict(r) && forall q :: q in r ==> Before(k, q)
    ensures Strict([k] + r)
  {
    var s := [k] + r;
    forall i, j | 0 <= i < j < |s| ensures Before(s[i], s[j]) {
      assert s[j] == r[j - 1];
    }
  }

  /** The canonical order is strict, so an object has exactly one canonical text. */
  lemma {:induction false} SortedIsStrict(keys: set<string>)
    ensures Strict(Sorted(keys)) && |Sorted(keys)| == |keys|
    decreases |keys|
  {
    if keys == {} {
    } else {
      var k := SortedStep(keys);
      SortedIsStrict(keys - {k});
      StrictCons(k, Sorted(keys - {k}));
    }
  }

  /** Any strictly ordered listing of the keys is the canonical one. */
  lemma {:induction false} SortedIsUnique(r: seq<string>, keys: set<string>)
    requires forall k :: k in r <==> k in keys
    requires Strict(r)
    ensures r == Sorted(keys)
    decreases |keys|
  {
    if r == [] {
      assert keys == {};
    } else {
      assert r[0] in keys;
      var k := SortedStep(keys);
      LexTotal(Encode(r[0]), Encode(k));
      if r[0] != k {
        assert false;
      }
      forall q | q in r[1..] ensures q in keys - {k} {
        var i :| 0 <= i < |r[1..]| && r[1..][i] == q;
        assert q == r[i + 1] && Before(r[0], r[i + 1]);
      }
      forall q | q in keys - {k} ensures q in r[1..] {
        var i :| 0 <= i < |r| && r[i] == q;
        assert r[1..][i - 1] == q;
      }
      SortedIsUnique(r[1..], keys - {k});
      assert r == [k] + r[1..];
    }
  }
}
