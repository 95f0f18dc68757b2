/**
 * A header list as the Fetch Standard's `Headers` object keeps it
 * (section 2.2.2 of the Fetch Standard): (name, value) pairs in order,
 * names compared byte-case-insensitively.
 */
module Headers {
  import opened Options

  type HeaderList = seq<(string, string)>

  function LowerChar(c: char): char {
    if 'A' <= c <= 'Z' then (c as int + 32) as char else c
  }

  /** ASCII lower-casing, the normalization header names are compared under. */
  function Lower(s: string): (r: string)
    ensures |r| == |s|
  {
    seq(|s|, i requires 0 <= i < |s| => LowerChar(s[i]))
  }

  /** Two header names denote the same header. */
  predicate NameEq(a: string, b: string) {
    Lower(a) == Lower(b)
  }

  /** The list contains a header named `name` (`headers.has(name)`). */
  predicate Has(h: HeaderList, name: string) {
    exists i :: 0 <= i < |h| && NameEq(h[i].0, name)
  }

  /** The values of every header named `name`, in list order. */
  function Values(h: HeaderList, name: string): seq<string> {
    if h == [] then []
    else (if NameEq(h[0].0, name) then [h[0].1] else []) + Values(h[1..], name)
  }

  function JoinValues(vs: seq<string>): string {
    if vs == [] then "" else if |vs| == 1 then vs[0] else vs[0] + ", " + JoinValues(vs[1..])
  }

  /** `headers.get(name)`: the values joined by ", ", or null when there is none. */
  function Get(h: HeaderList, name: string): Option<string> {
    var vs := Values(h, name);
    if vs == [] then None else Some(JoinValues(vs))
  }

  function RemoveAll(h: HeaderList, name: string): HeaderList {
    if h == [] then []
    else (if NameEq(h[0].0, name) then [] else [h[0]]) + RemoveAll(h[1..], name)
  }

  function ReplaceFirst(h: HeaderList, name: string, value: string): HeaderList {
    if h == [] then []
    else if NameEq(h[0].0, name) then [(h[0].0, value)] + RemoveAll(h[1..], name)
    else [h[0]] + ReplaceFirst(h[1..], name, value)
  }

  /**
   * `headers.set(name, value)`: when the list has the header, the first one
   * takes the new value and the others are removed; otherwise the header is
   * appended.
   */
  function Set(h: HeaderList, name: string, value: string): HeaderList {
    if Has(h, name) then ReplaceFirst(h, name, value) else h + [(name, value)]
  }

  // ---------------------------------------------------------------------

  lemma {:induction false} HasValues(h: HeaderList, name: string)
    ensures Has(h, name) <==> Values(h, name) != []
  {
    if h != [] {
      HasValues(h[1..], name);
      if Has(h[1..], name) {
        var i :| 0 <= i < |h[1..]| && NameEq(h[1..][i].0, name);
        assert NameEq(h[i + 1].0, name);
      }
      if Has(h, name) && !NameEq(h[0].0, name) {
        var i :| 0 <= i < |h| && NameEq(h[i].0, name);
        assert NameEq(h[1..][i - 1].0, name);
      }
    }
  }

  /** A header is present exactly when reading it gives a value. */
  lemma HasGet(h: HeaderList, name: string)
    ensures Has(h, name) <==> Get(h, name).Some?
  {
    HasValues(h, name);
  }

  /** Reading a header does not depend on the case of the name asked for. */
  lemma {:induction false} GetCaseInsensitive(h: HeaderList, a: string, b: string)
    requires NameEq(a, b)
    ensures Values(h, a) == Values(h, b)
    ensures Get(h, a) == Get(h, b)
  {
    if h != [] {
      GetCaseInsensitive(h[1..], a, b);
    }
  }

  lemma {:induction false} ValuesAppend(h: HeaderList, k: HeaderList, name: string)
    ensures Values(h + k, name) == Values(h, name) + Values(k, name)
  {
    if h == [] {
      assert h + k == k;
    } else {
      assert (h + k)[0] == h[0] && (h + k)[1..] == h[1..] + k;
      ValuesAppend(h[1..], k, name);
    }
  }

  lemma {:induction false} ValuesRemoveAll(h: HeaderList, n: string, m: string)
    ensures Values(RemoveAll(h, n), m) == if NameEq(n, m) then [] else Values(h, m)
  {
    if h != [] {
      ValuesRemoveAll(h[1..], n, m);
      var head: HeaderList := if NameEq(h[0].0, n) then [] else [h[0]];
      ValuesAppend(head, RemoveAll(h[1..], n), m);
      if head != [] {
        assert head[1..] == [];
      }
    }
  }

  lemma {:induction false} ValuesReplaceFirst(h: HeaderList, n: string, v: string, m: string)
    requires Has(h, n)
    ensures Values(ReplaceFirst(h, n, v), m) == if NameEq(n, m) then [v] else Values(h, m)
  {
    if NameEq(h[0].0, n) {
      var r := [(h[0].0, v)] + RemoveAll(h[1..], n);
      assert r[0] == (h[0].0, v) && r[1..] == RemoveAll(h[1..], n);
      ValuesRemoveAll(h[1..], n, m);
    } else {
      assert Has(h[1..], n) by {
        var i :| 0 <= i < |h| && NameEq(h[i].0, n);
        assert NameEq(h[1..][i - 1].0, n);
      }
      var r := [h[0]] + ReplaceFirst(h[1..], n, v);
      assert r[0] == h[0] && r[1..] == ReplaceFirst(h[1..], n, v);
      ValuesReplaceFirst(h[1..], n, v, m);
    }
  }

  /**
   * After `set(n, v)`, reading any name equal to `n` gives exactly `v`, and
   * reading any other name gives what it gave before.
   */
  lemma GetSet(h: HeaderList, n: string, v: string, m: string)
    ensures Get(Set(h, n, v), m) == if NameEq(n, m) then Some(v) else Get(h, m)
  {
    if Has(h, n) {
      ValuesReplaceFirst(h, n, v, m);
    } else {
      ValuesAppend(h, [(n, v)], m);
      var last: HeaderList := [(n, v)];
      assert last[0] == (n, v) && last[1..] == [];
      HasValues(h, n);
      assert Set(h, n, v) == h + last;
      if NameEq(n, m) {
        GetCaseInsensitive(h, n, m);
        assert Values(h, m) == [];
        assert Values(last, m) == [v];
        assert Values(h + last, m) == [v];
      } else {
        assert Values(last, m) == [];
        assert Values(h + last, m) == Values(h, m);
      }
    }
  }
}
