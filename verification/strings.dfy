/** Joining strings with a separator and splitting them apart again. */
module Strings {
  /** `Array.prototype.join(sep)`. */
  function Join(parts: seq<string>, sep: string): string {
    if parts == [] then ""
    else if |parts| == 1 then parts[0]
    else parts[0] + sep + Join(parts[1..], sep)
  }

  lemma JoinEmpty(parts: seq<string>, sep: string)
    requires forall i :: 0 <= i < |parts| ==> parts[i] != []
    ensures Join(parts, sep) == "" <==> parts == []
  {
  }

  lemma {:induction false} JoinAppend(p: seq<string>, q: seq<string>, sep: string)
    requires p != [] && q != []
    ensures Join(p + q, sep) == Join(p, sep) + sep + Join(q, sep)
  {
    if |p| > 1 {
      assert (p + q)[1..] == p[1..] + q;
      JoinAppend(p[1..], q, sep);
    } else {
      assert (p + q)[1..] == q;
    }
  }

  /** The index of the first `c` in `s`, or `|s|` when there is none. */
  function IndexOf(s: string, c: char): (i: nat)
    ensures i <= |s|
    ensures i < |s| ==> s[i] == c
    ensures forall j :: 0 <= j < i ==> s[j] != c
  {
    if s == [] then 0
    else if s[0] == c then 0
    else 1 + IndexOf(s[1..], c)
  }

  lemma IndexOfFirst(s: string, c: char, k: nat)
    requires k < |s| && s[k] == c
    requires forall j :: 0 <= j < k ==> s[j] != c
    ensures IndexOf(s, c) == k
  {
  }

  /** `String.prototype.split(c)` for a one-character separator. */
  function Split(s: string, c: char): seq<string>
    decreases |s|
  {
    var i := IndexOf(s, c);
    if i == |s| then [s] else [s[..i]] + Split(s[i + 1..], c)
  }

  /** Splitting undoes joining when no part contains the separator. */
  lemma {:induction false} SplitJoin(words: seq<string>, c: char)
    requires words != []
    requires forall i :: 0 <= i < |words| ==> c !in words[i]
    ensures Split(Join(words, [c]), c) == words
  {
    var w := words[0];
    if |words| == 1 {
      assert IndexOf(w, c) == |w|;
    } else {
      var rest := Join(words[1..], [c]);
      var s := w + [c] + rest;
      assert IndexOf(s, c) == |w| by {
        assert s[|w|] == c;
        assert forall j :: 0 <= j < |w| ==> s[j] == w[j];
        IndexOfFirst(s, c, |w|);
      }
      assert s[..|w|] == w;
      assert s[|w| + 1..] == rest;
      SplitJoin(words[1..], c);
    }
  }

  /** A character in neither the parts nor the separator is not in the joined text. */
  lemma {:induction false} JoinAvoids(parts: seq<string>, sep: string, c: char)
    requires c !in sep
    requires forall i :: 0 <= i < |parts| ==> c !in parts[i]
    ensures c !in Join(parts, sep)
  {
    if |parts| > 1 {
      JoinAvoids(parts[1..], sep, c);
    }
  }

  /** Text made of lines, each ended by a newline. */
  function Lines(ls: seq<string>): string {
    if ls == [] then "" else ls[0] + "\n" + Lines(ls[1..])
  }

  lemma {:induction false} LinesAppend(a: seq<string>, b: seq<string>)
    ensures Lines(a + b) == Lines(a) + Lines(b)
  {
    if a == [] {
      assert a + b == b;
    } else {
      assert (a + b)[1..] == a[1..] + b;
      LinesAppend(a[1..], b);
    }
  }

  /** Appending one line appends its text and a newline. */
  lemma LinesSnoc(ls: seq<string>, line: string)
    ensures Lines(ls + [line]) == Lines(ls) + line + "\n"
  {
    LinesAppend(ls, [line]);
    assert [line][1..] == [];
  }

  /** Lines are the newline-joined lines with an empty last part. */
  lemma {:induction false} LinesAsJoin(ls: seq<string>)
    ensures Lines(ls) == Join(ls + [""], "\n")
  {
    if ls != [] {
      LinesAsJoin(ls[1..]);
      assert (ls + [""])[1..] == ls[1..] + [""];
    }
  }

  /** Splitting text at newlines gives its lines back, then the empty remainder. */
  lemma SplitLines(ls: seq<string>)
    requires forall i :: 0 <= i < |ls| ==> '\n' !in ls[i]
    ensures Split(Lines(ls), '\n') == ls + [""]
  {
    LinesAsJoin(ls);
    var parts := ls + [""];
    forall i | 0 <= i < |parts|
      ensures '\n' !in parts[i]
    {
      if i < |ls| {
        assert parts[i] == ls[i];
      } else {
        assert parts[i] == "";
      }
    }
    SplitJoin(parts, '\n');
    assert "\n" == ['\n'];
    assert Lines(ls) == Join(parts, ['\n']);
  }
}
