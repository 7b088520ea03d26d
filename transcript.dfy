/**
 * The engine's answer and the transcript built from it (app.py:153-154,
 * app.py:179-180): the segment texts joined by single spaces, in order.
 */
module Transcript {

  /** What the transcription engine returns for one audio file. */
  datatype EngineResult = Segments(texts: seq<string>) | EngineFailure

  /**
   * `" ".join(texts)`: the transcript holds every text and one space between
   * each neighbouring pair, and it starts with the first text.
   */
  function Join(texts: seq<string>): (r: string)
    ensures texts == [] ==> r == ""
    ensures texts != [] ==> |r| == TotalLength(texts) + |texts| - 1 && r[..|texts[0]|] == texts[0]
  {
    if texts == [] then ""
    else if |texts| == 1 then texts[0]
    else texts[0] + " " + Join(texts[1..])
  }

  /** `s.split(" ")`: the pieces between single spaces, empty ones included. */
  function Split(s: string): (pieces: seq<string>)
    ensures |pieces| >= 1
  {
    if s == [] then [""]
    else
      var rest := Split(s[1..]);
      if s[0] == ' ' then [""] + rest else [[s[0]] + rest[0]] + rest[1..]
  }

  function TotalLength(texts: seq<string>): nat {
    if texts == [] then 0 else |texts[0]| + TotalLength(texts[1..])
  }

  /** Where the `i`-th text starts in the transcript: the texts before it and one space after each. */
  function Offset(texts: seq<string>, i: nat): nat
    requires i <= |texts|
  {
    TotalLength(texts[..i]) + i
  }

  lemma OffsetShift(texts: seq<string>, i: nat)
    requires 1 <= i <= |texts|
    ensures Offset(texts, i) == |texts[0]| + 1 + Offset(texts[1..], i - 1)
  {
    assert texts[..i][1..] == texts[1..][..i - 1];
  }

  /**
   * The transcript holds every text, in order, at its offset, and a single
   * space just before every text but the first; with the length `Join`
   * promises, nothing else is in it.
   */
  lemma {:induction false} JoinLayout(texts: seq<string>)
    ensures forall i :: 0 <= i < |texts| ==>
      Offset(texts, i) + |texts[i]| <= |Join(texts)|
      && Join(texts)[Offset(texts, i)..Offset(texts, i) + |texts[i]|] == texts[i]
    ensures forall i :: 0 < i < |texts| ==> Join(texts)[Offset(texts, i) - 1] == ' '
  {
    if |texts| > 1 {
      JoinLayout(texts[1..]);
      forall i | 0 <= i < |texts|
        ensures Offset(texts, i) + |texts[i]| <= |Join(texts)|
        ensures Join(texts)[Offset(texts, i)..Offset(texts, i) + |texts[i]|] == texts[i]
        ensures 0 < i ==> Join(texts)[Offset(texts, i) - 1] == ' '
      {
        if i == 0 {
          assert Offset(texts, 0) == 0 by { assert texts[..0] == []; }
        } else {
          JoinLayoutAfterHead(texts, i);
        }
      }
    } else if |texts| == 1 {
      assert Offset(texts, 0) == 0 by { assert texts[..0] == []; }
    }
  }

  /** One step of `JoinLayout`: a later text keeps its place once the first text and a space are put in front. */
  lemma JoinLayoutAfterHead(texts: seq<string>, i: nat)
    requires 1 <= i < |texts|
    requires var rest, o := texts[1..], Offset(texts[1..], i - 1);
      && o + |rest[i - 1]| <= |Join(rest)|
      && Join(rest)[o..o + |rest[i - 1]|] == rest[i - 1]
      && (1 < i ==> Join(rest)[o - 1] == ' ')
    ensures Offset(texts, i) + |texts[i]| <= |Join(texts)|
    ensures Join(texts)[Offset(texts, i)..Offset(texts, i) + |texts[i]|] == texts[i]
    ensures Join(texts)[Offset(texts, i) - 1] == ' '
  {
    var head, rest := texts[0] + " ", texts[1..];
    var o := Offset(rest, i - 1);
    OffsetShift(texts, i);
    var j := Join(rest);
    assert Join(texts) == head + j;
    SliceAfterPrefix(head, j, o, rest[i - 1]);
    if i == 1 {
      assert o == 0 by { assert rest[..0] == []; }
    }
  }

  /** A piece found at `o` in `j` is found at `|h| + o` in `h + j`, and so is the character before it. */
  lemma SliceAfterPrefix(h: string, j: string, o: nat, t: string)
    requires h != [] && h[|h| - 1] == ' '
    requires o + |t| <= |j| && j[o..o + |t|] == t
    ensures (h + j)[|h| + o..|h| + o + |t|] == t
    ensures 0 < o ==> (h + j)[|h| + o - 1] == j[o - 1]
    ensures o == 0 ==> (h + j)[|h| + o - 1] == ' '
  {
    assert (h + j)[|h| + o..|h| + o + |t|] == j[o..o + |t|];
  }

  lemma {:induction false} SplitWord(a: string)
    requires ' ' !in a
    ensures Split(a) == [a]
  {
    if a != [] {
      SplitWord(a[1..]);
      assert [a[0]] + a[1..] == a;
    }
  }

  lemma {:induction false} SplitAfterWord(a: string, b: string)
    requires ' ' !in a
    ensures Split(a + " " + b) == [a] + Split(b)
  {
    if a == [] {
      assert a + " " + b == [' '] + b;
      assert (a + " " + b)[1..] == b;
    } else {
      assert (a + " " + b)[1..] == a[1..] + " " + b;
      SplitAfterWord(a[1..], b);
      assert [a[0]] + a[1..] == a;
    }
  }

  /**
   * When no segment text contains a space, splitting the transcript on
   * spaces gives back the segments, in the engine's order.
   */
  lemma {:induction false} SplitJoin(texts: seq<string>)
    requires texts != []
    requires forall i :: 0 <= i < |texts| ==> ' ' !in texts[i]
    ensures Split(Join(texts)) == texts
  {
    if |texts| == 1 {
      SplitWord(texts[0]);
    } else {
      SplitAfterWord(texts[0], Join(texts[1..]));
      SplitJoin(texts[1..]);
    }
  }
}
