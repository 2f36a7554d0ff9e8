/** JavaScript's `split` on a one-character separator, which `analyzeFood` applies to the
    image argument after testing `includes(',')` (modelled as `',' in s`). `IndexOf` (the
    first occurrence, "not found" read as the length) defines `Split`; `Join` undoes it and
    serves the round-trip proofs. */
module JsString {

  /** Position of the first `c` in `s`, or `|s|` when `s` holds no `c`. */
  function IndexOf(s: string, c: char): (i: nat)
    ensures i <= |s|
    ensures c !in s[..i]
    ensures i < |s| ==> s[i] == c
    ensures i == |s| <==> c !in s
    decreases |s|
  {
    if |s| == 0 then 0
    else if s[0] == c then 0
    else
      var j := IndexOf(s[1..], c);
      assert s[..1 + j] == [s[0]] + s[1..][..j];
      1 + j
  }

  /** `s.split(sep)`: the maximal pieces of `s` between separators, in order. */
  function Split(s: string, sep: char): (pieces: seq<string>)
    ensures |pieces| >= 1
    ensures forall k :: 0 <= k < |pieces| ==> sep !in pieces[k]
    ensures |pieces| == 1 <==> sep !in s
    decreases |s|
  {
    var i := IndexOf(s, sep);
    if i == |s| then [s] else [s[..i]] + Split(s[i + 1..], sep)
  }

  /** `pieces.join(sep)`. */
  function Join(pieces: seq<string>, sep: char): string
    requires |pieces| >= 1
    decreases |pieces|
  {
    if |pieces| == 1 then pieces[0] else pieces[0] + [sep] + Join(pieces[1..], sep)
  }

  /** Joining a piece in front of at least one other puts one separator between them. */
  lemma JoinCons(p: string, rest: seq<string>, sep: char)
    requires |rest| >= 1
    ensures Join([p] + rest, sep) == p + [sep] + Join(rest, sep)
  {
  }

  /** Splitting loses nothing: joining the pieces gives the string back. */
  lemma {:induction false} JoinSplit(s: string, sep: char)
    ensures Join(Split(s, sep), sep) == s
    decreases |s|
  {
    var i := IndexOf(s, sep);
    if i < |s| {
      JoinSplit(s[i + 1..], sep);
      JoinSplitStep(s, sep, i);
    }
  }

  /** One step of JoinSplit: the first piece, the separator, then the rest joined back. */
  lemma JoinSplitStep(s: string, sep: char, i: nat)
    requires i == IndexOf(s, sep) < |s|
    requires Join(Split(s[i + 1..], sep), sep) == s[i + 1..]
    ensures Join(Split(s, sep), sep) == s
  {
    var rest := s[i + 1..];
    Around(s, i);
    assert Split(s, sep) == [s[..i]] + Split(rest, sep);
    JoinCons(s[..i], Split(rest, sep), sep);
  }

  /** A string is what comes before position `i`, the character there, and what follows. */
  lemma Around(s: string, i: nat)
    requires i < |s|
    ensures s == s[..i] + [s[i]] + s[i + 1..]
  {
  }

  /** The first separator of `p + [sep] + t` sits right after `p` when `p` holds none. */
  lemma IndexOfAfterPrefix(p: string, sep: char, t: string)
    requires sep !in p
    ensures IndexOf(p + [sep] + t, sep) == |p|
  {
    var s := p + [sep] + t;
    var i := IndexOf(s, sep);
    assert s[|p|] == sep;
  }

  /** Joining separator-free pieces and splitting again gives the same pieces. */
  lemma {:induction false} SplitJoin(pieces: seq<string>, sep: char)
    requires |pieces| >= 1
    requires forall k :: 0 <= k < |pieces| ==> sep !in pieces[k]
    ensures Split(Join(pieces, sep), sep) == pieces
    decreases |pieces|
  {
    if |pieces| > 1 {
      SplitJoin(pieces[1..], sep);
      SplitJoinStep(pieces[0], pieces[1..], sep);
      assert pieces == [pieces[0]] + pieces[1..];
    }
  }

  /** One step of SplitJoin: a separator-free first piece is split off exactly. */
  lemma SplitJoinStep(p: string, rest: seq<string>, sep: char)
    requires |rest| >= 1 && sep !in p
    requires Split(Join(rest, sep), sep) == rest
    ensures Split(Join([p] + rest, sep), sep) == [p] + rest
  {
    var t := Join(rest, sep);
    var s := p + [sep] + t;
    assert s[..|p|] == p;
    assert s[|p| + 1..] == t;
    IndexOfAfterPrefix(p, sep, t);
    JoinCons(p, rest, sep);
  }
}
