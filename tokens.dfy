/**
 * Whitespace tokenisation as done by Python's argument-less `str.split()`:
 * runs of whitespace separate tokens, leading and trailing whitespace is
 * dropped, and no token is empty.
 */
module Tokens {

  /** The characters `str.isspace()` accepts, which `str.split()` splits on. */
  predicate IsSpace(c: char) {
    ('\t' <= c <= '\r') || ('\U{1C}' <= c <= '\U{1F}') || c == ' '
    || c == '\U{85}' || c == '\U{A0}' || c == '\U{1680}'
    || ('\U{2000}' <= c <= '\U{200A}') || c == '\U{2028}' || c == '\U{2029}'
    || c == '\U{202F}' || c == '\U{205F}' || c == '\U{3000}'
  }

  /** A token: non-empty and free of whitespace. */
  predicate IsWord(w: string) {
    |w| > 0 && forall i :: 0 <= i < |w| ==> !IsSpace(w[i])
  }

  predicate AllWords(ws: seq<string>) {
    forall i :: 0 <= i < |ws| ==> IsWord(ws[i])
  }

  /** Length of the token that starts `s`: it ends at the first whitespace. */
  function WordLength(s: string): (n: nat)
    requires s != [] && !IsSpace(s[0])
    ensures 0 < n <= |s|
    ensures IsWord(s[..n])
    ensures n < |s| ==> IsSpace(s[n])
  {
    if |s| == 1 || IsSpace(s[1]) then 1
    else
      var m := WordLength(s[1..]);
      assert s[..1 + m] == [s[0]] + s[1..][..m];
      1 + m
  }

  /** `s.split()` */
  function Split(s: string): (r: seq<string>)
    ensures AllWords(r)
    decreases |s|
  {
    if s == [] then []
    else if IsSpace(s[0]) then Split(s[1..])
    else
      var n := WordLength(s);
      [s[..n]] + Split(s[n..])
  }

  /** `" ".join(ws)` */
  function Unwords(ws: seq<string>): string {
    if ws == [] then ""
    else if |ws| == 1 then ws[0]
    else ws[0] + " " + Unwords(ws[1..])
  }

  /** The text `" " + id` appended once per id, in order. */
  function IdSuffix(ids: seq<string>): string {
    if ids == [] then "" else IdSuffix(ids[..|ids| - 1]) + " " + ids[|ids| - 1]
  }

  lemma {:induction false} WordLengthOfWord(w: string, rest: string)
    requires IsWord(w)
    requires rest == [] || IsSpace(rest[0])
    ensures (w + rest)[0] == w[0] && WordLength(w + rest) == |w|
  {
    if |w| > 1 {
      assert (w + rest)[1..] == w[1..] + rest;
      WordLengthOfWord(w[1..], rest);
    }
  }

  /** A leading token is split off whole. */
  lemma SplitAfterWord(w: string, rest: string)
    requires IsWord(w)
    requires rest == [] || IsSpace(rest[0])
    ensures Split(w + rest) == [w] + Split(rest)
  {
    WordLengthOfWord(w, rest);
    var s := w + rest;
    assert s[..|w|] == w;
    assert s[|w|..] == rest;
  }

  /** Splitting a space-joined list of tokens gives the tokens back. */
  lemma {:induction false} SplitUnwords(ws: seq<string>)
    requires AllWords(ws)
    ensures Split(Unwords(ws)) == ws
  {
    if |ws| == 1 {
      SplitAfterWord(ws[0], "");
      assert ws[0] + "" == ws[0];
    } else if |ws| > 1 {
      var rest := Unwords(ws[1..]);
      SplitAfterWord(ws[0], " " + rest);
      assert ws[0] + (" " + rest) == ws[0] + " " + rest;
      assert (" " + rest)[1..] == rest;
      SplitUnwords(ws[1..]);
    }
  }

  lemma {:induction false} UnwordsSnoc(ws: seq<string>, x: string)
    requires ws != []
    ensures Unwords(ws + [x]) == Unwords(ws) + " " + x
  {
    if |ws| == 1 {
      assert ws + [x] == [ws[0], x];
    } else {
      assert (ws + [x])[1..] == ws[1..] + [x];
      UnwordsSnoc(ws[1..], x);
    }
  }

  /** An action caption followed by the id suffix is the space-joined caption and ids. */
  lemma {:induction false} IdSuffixIsUnwords(caption: string, ids: seq<string>)
    ensures caption + IdSuffix(ids) == Unwords([caption] + ids)
  {
    if ids != [] {
      var front := ids[..|ids| - 1];
      IdSuffixIsUnwords(caption, front);
      UnwordsSnoc([caption] + front, ids[|ids| - 1]);
      assert [caption] + ids == [caption] + front + [ids[|ids| - 1]];
    }
  }

  lemma {:induction false} IdSuffixAppend(a: seq<string>, b: seq<string>)
    ensures IdSuffix(a + b) == IdSuffix(a) + IdSuffix(b)
  {
    if b == [] {
      assert a + b == a;
    } else {
      var front := b[..|b| - 1];
      assert (a + b)[..|a + b| - 1] == a + front;
      IdSuffixAppend(a, front);
    }
  }

  /**
   * An action text built as a caption with ids appended splits back into
   * the caption followed by exactly those ids.
   */
  /** A caption, one space and one id split back into the caption and the id. */
  lemma SplitLabelledId(caption: string, id: string)
    requires IsWord(caption) && IsWord(id)
    ensures Split(caption + " " + id) == [caption, id]
  {
    SplitLabelledIds(caption, [id]);
    assert [id][..0] == [];
    assert IdSuffix([id]) == " " + id;
    assert caption + (" " + id) == caption + " " + id;
    assert [caption] + [id] == [caption, id];
  }

  lemma SplitLabelledIds(caption: string, ids: seq<string>)
    requires IsWord(caption) && AllWords(ids)
    ensures Split(caption + IdSuffix(ids)) == [caption] + ids
  {
    IdSuffixIsUnwords(caption, ids);
    SplitUnwords([caption] + ids);
  }

  /** Text made only of whitespace has no tokens. */
  lemma {:induction false} SplitBlank(s: string)
    requires forall i :: 0 <= i < |s| ==> IsSpace(s[i])
    ensures Split(s) == []
  {
    if s != [] {
      SplitBlank(s[1..]);
    }
  }
}
