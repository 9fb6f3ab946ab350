/** `splitString` of utils/utils.cpp. */
module SplitString {
  import opened Options

  predicate OccursAt(s: string, d: string, j: nat) {
    j + |d| <= |s| && s[j..j + |d|] == d
  }

  /** `s.find(d, from)`. */
  function Find(s: string, d: string, from: nat): (r: Option<nat>)
    ensures r.Some? ==> from <= r.value && r.value + |d| <= |s|
    decreases |s| - from
  {
    if from + |d| > |s| then None
    else if OccursAt(s, d, from) then Some(from)
    else if from == |s| then None
    else Find(s, d, from + 1)
  }

  /** It is the first position from there on at which `d` occurs, if there is one. */
  lemma {:induction false} FindMeaning(s: string, d: string, from: nat)
    ensures match Find(s, d, from)
            case None => forall j :: from <= j ==> !OccursAt(s, d, j)
            case Some(i) => OccursAt(s, d, i) && forall j :: from <= j < i ==> !OccursAt(s, d, j)
    decreases |s| - from
  {
    if from < |s| {
      FindMeaning(s, d, from + 1);
    }
  }

  /** The pieces between consecutive delimiters, empty ones included. */
  function Pieces(s: string, d: string): seq<string>
    requires d != ""
    decreases |s|
  {
    match Find(s, d, 0)
    case None => [s]
    case Some(i) => [s[..i]] + Pieces(s[i + |d|..], d)
  }

  function NonEmpty(v: seq<string>): seq<string> {
    if v == [] then [] else (if v[0] == "" then [] else [v[0]]) + NonEmpty(v[1..])
  }

  /** It leaves out the empty strings, and nothing else, wherever they are. */
  lemma {:induction false} NonEmptyConcat(a: seq<string>, b: seq<string>)
    ensures NonEmpty(a + b) == NonEmpty(a) + NonEmpty(b)
  {
    if a == [] {
      assert a + b == b;
    } else {
      NonEmptyConcat(a[1..], b);
      assert (a + b)[1..] == a[1..] + b && (a + b)[0] == a[0];
      assert NonEmpty(a + b) == (if a[0] == "" then [] else [a[0]]) + (NonEmpty(a[1..]) + NonEmpty(b));
    }
  }

  lemma OneKept(p: string)
    ensures NonEmpty([p]) == if p == "" then [] else [p]
  {
    assert [p][1..] == [];
  }

  /** The default mode of `splitString`. */
  function Split(s: string, d: string): seq<string>
    requires d != ""
  {
    NonEmpty(Pieces(s, d))
  }

  function Join(v: seq<string>, d: string): string {
    if v == [] then "" else if |v| == 1 then v[0] else v[0] + d + Join(v[1..], d)
  }

  lemma JoinCons(p: string, v: seq<string>, d: string)
    requires v != []
    ensures Join([p] + v, d) == p + d + Join(v, d)
  {
    assert ([p] + v)[1..] == v;
  }

  /** Joining the pieces restores the text. */
  lemma {:induction false} JoinPieces(s: string, d: string)
    requires d != ""
    ensures Pieces(s, d) != [] && Join(Pieces(s, d), d) == s
    decreases |s|
  {
    FindMeaning(s, d, 0);
    match Find(s, d, 0)
    case None =>
    case Some(i) =>
      JoinPieces(s[i + |d|..], d);
      JoinCons(s[..i], Pieces(s[i + |d|..], d), d);
      assert s == s[..i] + s[i..i + |d|] + s[i + |d|..];
  }

  lemma OccursInPrefix(s: string, i: nat, d: string, j: nat)
    requires i <= |s|
    ensures OccursAt(s[..i], d, j) ==> OccursAt(s, d, j)
  {
    assert j + |d| <= i ==> s[..i][j..j + |d|] == s[j..j + |d|];
  }

  /** No piece contains the delimiter. */
  lemma {:induction false} PiecesAreFree(s: string, d: string, p: string, j: nat)
    requires d != "" && p in Pieces(s, d)
    ensures !OccursAt(p, d, j)
    decreases |s|
  {
    FindMeaning(s, d, 0);
    match Find(s, d, 0)
    case None =>
    case Some(i) =>
      if p == s[..i] {
        OccursInPrefix(s, i, d, j);
      } else {
        PiecesAreFree(s[i + |d|..], d, p, j);
      }
  }

  /** For a one-character delimiter the split is the inverse of the join: pieces free of the
      delimiter come back unchanged. */
  lemma {:induction false} PiecesOfJoin(v: seq<string>, c: char)
    requires v != [] && forall p :: p in v ==> c !in p
    ensures Pieces(Join(v, [c]), [c]) == v
  {
    assert v[0] in v;
    if |v| == 1 {
      NotFound(v[0], c);
    } else {
      var rest := Join(v[1..], [c]);
      var s := v[0] + [c] + rest;
      FirstFound(v[0], rest, c);
      PiecesOfJoin(v[1..], c);
      assert s[..|v[0]|] == v[0] && s[|v[0]| + 1..] == rest;
    }
  }

  lemma {:induction false} NotFound(s: string, c: char)
    requires c !in s
    ensures Find(s, [c], 0) == None
  {
    FindMeaning(s, [c], 0);
    forall j: nat ensures !OccursAt(s, [c], j) {
      assert j < |s| ==> s[j] in s && s[j..j + 1] == [s[j]];
    }
  }

  lemma {:induction false} FirstFound(p: string, rest: string, c: char)
    requires c !in p
    ensures Find(p + [c] + rest, [c], 0) == Some(|p|)
  {
    var s := p + [c] + rest;
    FindMeaning(s, [c], 0);
    assert s[|p|..|p| + 1] == [c];
    assert OccursAt(s, [c], |p|);
    forall j: nat | j < |p| ensures !OccursAt(s, [c], j) {
      assert s[j..j + 1] == [p[j]] && p[j] in p;
    }
  }

  lemma OccursBehind(front: string, s: string, d: string, j: nat)
    ensures OccursAt(front + s, d, |front| + j) <==> OccursAt(s, d, j)
  {
    assert j + |d| <= |s| ==> (front + s)[|front| + j..|front| + j + |d|] == s[j..j + |d|];
  }

  /** A result of `Find`, moved. */
  function Moved(r: Option<nat>, offset: nat): Option<nat> {
    if r == None then None else Some(offset + r.value)
  }

  lemma {:induction false} FindBehind(front: string, s: string, d: string, from: nat)
    ensures Find(front + s, d, |front| + from) == Moved(Find(s, d, from), |front|)
    decreases |s| - from
  {
    OccursBehind(front, s, d, from);
    if from < |s| {
      FindBehind(front, s, d, from + 1);
    }
  }

  /** Searching on from a position is searching what lies behind it. */
  lemma {:induction false} FindFrom(s: string, d: string, last: nat)
    requires last <= |s|
    ensures Find(s, d, last) == Moved(Find(s[last..], d, 0), last)
  {
    var front, rest := s[..last], s[last..];
    assert s == front + rest;
    FindBehind(front, rest, d, 0);
  }

  /** The pieces the given mode keeps. */
  function Kept(v: seq<string>, acceptEmptyString: bool): seq<string> {
    if acceptEmptyString then v else NonEmpty(v)
  }

  lemma Regroup(v: seq<string>, p: string, rest: seq<string>)
    ensures v + ([p] + rest) == (v + [p]) + rest && v + rest == v + ([] + rest)
  {
  }

  /** Cutting one more piece off: what was kept so far, and what will be kept of the rest. */
  lemma {:induction false} CutStep(v: seq<string>, p: string, rest: seq<string>, acceptEmptyString: bool)
    ensures v + Kept([p] + rest, acceptEmptyString) ==
            Put(v, p, acceptEmptyString) + Kept(rest, acceptEmptyString)
  {
    assert ([p] + rest)[1..] == rest;
    Regroup(v, p, rest);
    Regroup(v, p, NonEmpty(rest));
  }

  function Put(v: seq<string>, p: string, acceptEmptyString: bool): seq<string> {
    if p != "" || acceptEmptyString then v + [p] else v
  }

  lemma Shifted(s: string, last: nat, i: nat, j: nat)
    requires last + i <= |s| && last + j <= |s|
    ensures s[last..][..i] == s[last..last + i] && s[last..][j..] == s[last + j..]
  {
  }

  lemma FirstPiece(s: string, d: string, i: nat, head: string, tail: string)
    requires d != "" && Find(s, d, 0) == Some(i) && s[..i] == head && s[i + |d|..] == tail
    ensures Pieces(s, d) == [head] + Pieces(tail, d)
  {
  }

  /** One step of the loop, on positions in the whole text. */
  lemma {:induction false} PiecesStep(s: string, d: string, last: nat, i: nat)
    requires d != "" && last <= |s| && Find(s, d, last) == Some(i)
    ensures Pieces(s[last..], d) == [s[last..i]] + Pieces(s[i + |d|..], d)
  {
    FindFrom(s, d, last);
    Shifted(s, last, i - last, i - last + |d|);
    FirstPiece(s[last..], d, i - last, s[last..i], s[i + |d|..]);
  }

  lemma {:induction false} LastPiece(s: string, d: string, last: nat)
    requires d != "" && last <= |s| && Find(s, d, last) == None
    ensures Pieces(s[last..], d) == [s[last..]]
  {
    FindFrom(s, d, last);
  }

  /** What the loop will have returned in the end. */
  ghost function Total(s: string, d: string, last: nat, v: seq<string>, acceptEmptyString: bool): seq<string>
    requires d != "" && last <= |s|
  {
    v + Kept(Pieces(s[last..], d), acceptEmptyString)
  }

  lemma {:induction false} LoopStep(s: string, d: string, last: nat, i: nat, v: seq<string>, acceptEmptyString: bool)
    requires d != "" && last <= |s| && Find(s, d, last) == Some(i)
    ensures Total(s, d, last, v, acceptEmptyString) ==
            Total(s, d, i + |d|, Put(v, s[last..i], acceptEmptyString), acceptEmptyString)
  {
    PiecesStep(s, d, last, i);
    CutStep(v, s[last..i], Pieces(s[i + |d|..], d), acceptEmptyString);
  }

  lemma {:induction false} LoopEnd(s: string, d: string, last: nat, v: seq<string>, acceptEmptyString: bool)
    requires d != "" && last <= |s| && Find(s, d, last) == None
    ensures Total(s, d, last, v, acceptEmptyString) == Put(v, s[last..], acceptEmptyString)
  {
    LastPiece(s, d, last);
    CutStep(v, s[last..], [], acceptEmptyString);
    assert [s[last..]] + [] == [s[last..]];
  }

  /** The loop of `splitString`. */
  method SplitText(s: string, delimiter: string, acceptEmptyString: bool) returns (v: seq<string>)
    ensures delimiter == "" ==> v == []
    ensures delimiter != "" ==> v == Kept(Pieces(s, delimiter), acceptEmptyString)
  {
    if delimiter == "" {
      return [];
    }
    v := [];
    var last := 0;
    var next := Find(s, delimiter, last);
    assert s[last..] == s;
    while next != None
      invariant last <= |s| && next == Find(s, delimiter, last)
      invariant Total(s, delimiter, last, v, acceptEmptyString) == Kept(Pieces(s, delimiter), acceptEmptyString)
      decreases |s| - last
    {
      LoopStep(s, delimiter, last, next.value, v, acceptEmptyString);
      if next.value > last || acceptEmptyString {
        v := v + [s[last..next.value]];
      }
      last := next.value + |delimiter|;
      next := Find(s, delimiter, last);
    }
    LoopEnd(s, delimiter, last, v, acceptEmptyString);
    if |s| > last || acceptEmptyString {
      v := v + [s[last..]];
    }
  }
}
