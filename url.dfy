/**
 * The part of WHATWG URL parsing that `new URL(link).searchParams.get(name)`
 * relies on: the query is the text after the first `?` and before the
 * fragment, it is a list of `&`-separated pieces, empty pieces are skipped,
 * each piece is a name and a value split at its first `=`, `+` stands for a
 * space, and `get` returns the value of the first piece with that name.
 */
module Url {
  import opened Wrappers

  /** The position of the first `c` in `s` at or after `k`, or `|s|`. */
  function IndexFrom(s: string, c: char, k: nat): (i: nat)
    requires k <= |s|
    ensures k <= i <= |s|
    ensures i < |s| ==> s[i] == c
    ensures forall j :: k <= j < i ==> s[j] != c
    decreases |s| - k
  {
    if k == |s| || s[k] == c then k else IndexFrom(s, c, k + 1)
  }

  /** The position of the first `c` in `s`, or `|s|` when there is none. */
  function IndexOf(s: string, c: char): nat
    ensures IndexOf(s, c) <= |s|
  {
    IndexFrom(s, c, 0)
  }

  /** The text before the first `c` (all of `s` when there is none). */
  function Before(s: string, c: char): string {
    s[..IndexOf(s, c)]
  }

  /** The text after the first `c` (empty when there is none). */
  function After(s: string, c: char): string {
    var i := IndexOf(s, c);
    if i < |s| then s[i + 1..] else ""
  }

  /** `s` cut at every `sep`. */
  function Split(s: string, sep: char): (pieces: seq<string>)
    ensures |pieces| > 0
    ensures forall p :: p in pieces ==> sep !in p
    decreases |s|
  {
    var i := IndexOf(s, sep);
    if i == |s| then [s] else [s[..i]] + Split(s[i + 1..], sep)
  }

  /** The inverse of `Split`: the pieces glued back with `sep` between. */
  function Join(pieces: seq<string>, sep: char): string
    requires |pieces| > 0
  {
    if |pieces| == 1 then pieces[0] else pieces[0] + [sep] + Join(pieces[1..], sep)
  }

  lemma {:induction false} SplitJoin(s: string, sep: char)
    ensures Join(Split(s, sep), sep) == s
    decreases |s|
  {
    var i := IndexOf(s, sep);
    if i < |s| {
      SplitJoin(s[i + 1..], sep);
      assert s == s[..i] + [sep] + s[i + 1..];
    }
  }

  /** Form decoding of a name or value: `+` becomes a space. */
  function PlusToSpace(s: string): (r: string)
    ensures |r| == |s|
    ensures forall i :: 0 <= i < |s| ==> r[i] == (if s[i] == '+' then ' ' else s[i])
  {
    if s == [] then [] else [if s[0] == '+' then ' ' else s[0]] + PlusToSpace(s[1..])
  }

  /** The query of a URL: after the first `?`, before any `#`. */
  function Query(link: string): string {
    After(Before(link, '#'), '?')
  }

  /** Piece `i` is a non-empty piece whose decoded name is `name`. */
  predicate Names(pieces: seq<string>, name: string, i: nat)
    requires i < |pieces|
  {
    pieces[i] != [] && PlusToSpace(Before(pieces[i], '=')) == name
  }

  /** `URLSearchParams.get(name)` over the `&`-pieces from index `k` on. */
  function LookupFrom(pieces: seq<string>, name: string, k: nat): Option<string>
    requires k <= |pieces|
    decreases |pieces| - k
  {
    if k == |pieces| then None
    else if Names(pieces, name, k) then Some(PlusToSpace(After(pieces[k], '=')))
    else LookupFrom(pieces, name, k + 1)
  }

  /** `new URL(link).searchParams.get(name)`: `None` plays `null`. */
  function QueryParam(link: string, name: string): Option<string> {
    LookupFrom(Split(Query(link), '&'), name, 0)
  }

  /** The value `get` returns is the first piece whose name matches. */
  lemma {:induction false} LookupFromFirst(pieces: seq<string>, name: string, k: nat)
    requires k <= |pieces| && LookupFrom(pieces, name, k).Some?
    ensures exists i :: (&& k <= i < |pieces| && Names(pieces, name, i)
                         && LookupFrom(pieces, name, k).value == PlusToSpace(After(pieces[i], '='))
                         && forall j :: k <= j < i ==> !Names(pieces, name, j))
    decreases |pieces| - k
  {
    if !Names(pieces, name, k) {
      LookupFromFirst(pieces, name, k + 1);
    }
  }

  /** `get` returns `null` exactly when no piece carries the name. */
  lemma {:induction false} LookupFromNone(pieces: seq<string>, name: string, k: nat)
    requires k <= |pieces|
    ensures LookupFrom(pieces, name, k).None? <==> forall j :: k <= j < |pieces| ==> !Names(pieces, name, j)
    decreases |pieces| - k
  {
    if k < |pieces| && !Names(pieces, name, k) {
      LookupFromNone(pieces, name, k + 1);
    }
  }

  /** The search for `c` skips a stretch without `c`. */
  lemma {:induction false} IndexFromSkip(s: string, c: char, k: nat, m: nat)
    requires k <= m <= |s|
    requires forall j :: k <= j < m ==> s[j] != c
    ensures IndexFrom(s, c, k) == IndexFrom(s, c, m)
    decreases m - k
  {
    if k < m {
      IndexFromSkip(s, c, k + 1, m);
    }
  }

  /** The first `c` of `p + q` when `p` holds none. */
  lemma IndexOfAfterPrefix(p: string, q: string, c: char)
    requires c !in p
    ensures IndexOf(p + q, c) == |p| + IndexOf(q, c)
  {
    var s := p + q;
    IndexFromSkip(s, c, 0, |p|);
    var i := IndexOf(q, c);
    IndexFromSkip(s, c, |p|, |p| + i);
    assert i < |q| ==> s[|p| + i] == c;
  }

  lemma PlusToSpaceNoPlus(s: string)
    requires '+' !in s
    ensures PlusToSpace(s) == s
  {
  }

  /** A link with a single query parameter gives its value back. */
  lemma QueryParamSingle(base: string, name: string, v: string)
    requires '#' !in base && '?' !in base
    requires name != [] && '=' !in name && '&' !in name && '#' !in name && '+' !in name
    requires '&' !in v && '#' !in v && '+' !in v
    ensures QueryParam(base + "?" + name + "=" + v, name) == Some(v)
  {
    var link := base + "?" + name + "=" + v;
    var piece := name + "=" + v;
    assert link == base + ("?" + piece);
    assert '#' !in "?" + piece;
    IndexOfAfterPrefix(link, [], '#');
    assert link + [] == link;
    assert Before(link, '#') == link;
    IndexOfAfterPrefix(base, "?" + piece, '?');
    assert Query(link) == piece;
    IndexOfAfterPrefix(piece, [], '&');
    assert piece + [] == piece;
    assert Split(piece, '&') == [piece];
    IndexOfAfterPrefix(name, "=" + v, '=');
    assert piece == name + ("=" + v);
    assert Before(piece, '=') == name && After(piece, '=') == v;
    PlusToSpaceNoPlus(name);
    PlusToSpaceNoPlus(v);
    assert Names([piece], name, 0);
  }
}
