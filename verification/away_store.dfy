/** The away list: the file away.txt holding one hostmask per line, and the
    four helpers that read, append to, rewrite and truncate it. */
module AwayStore {

  /** Position of the first occurrence of `h` in `s`. */
  function FirstIndex(s: seq<string>, h: string): (i: nat)
    requires h in s
    ensures i < |s| && s[i] == h
    ensures forall j :: 0 <= j < i ==> s[j] != h
  {
    if s[0] == h then 0 else 1 + FirstIndex(s[1..], h)
  }

  /** The list after `ArrayList.remove(Object)`: the first element equal to
      `h` is dropped, if there is one. */
  function RemoveFirst(s: seq<string>, h: string): (r: seq<string>)
    ensures h !in s ==> r == s
    ensures h in s ==> |r| == |s| - 1
  {
    if s == [] then []
    else if s[0] == h then s[1..]
    else [s[0]] + RemoveFirst(s[1..], h)
  }

  /** Removal takes exactly one copy of `h` out of the list's entries, and
      no other entry. */
  lemma {:induction false} RemoveFirstCount(s: seq<string>, h: string)
    ensures multiset(RemoveFirst(s, h)) == multiset(s) - multiset{h}
  {
    if s != [] {
      assert s == [s[0]] + s[1..];
      if s[0] != h {
        RemoveFirstCount(s[1..], h);
      }
    }
  }

  /** Removal cuts out exactly the first occurrence, at index `i`, and keeps
      every other entry in its order. */
  lemma {:induction false} RemoveFirstAt(s: seq<string>, h: string, i: nat)
    requires i < |s| && s[i] == h && h !in s[..i]
    ensures RemoveFirst(s, h) == s[..i] + s[i + 1..]
  {
    if i > 0 {
      var t := s[1..];
      assert s[0] in s[..i];
      assert t[..i - 1] == s[1..i];
      RemoveFirstAt(t, h, i - 1);
      assert s[..i] == [s[0]] + t[..i - 1];
      assert s[i + 1..] == t[i..];
    }
  }

  /** Appending an absent hostmask and then removing it gives back the list. */
  lemma {:induction false} RemoveFirstAfterAppend(s: seq<string>, h: string)
    requires h !in s
    ensures RemoveFirst(s + [h], h) == s
  {
    if s != [] {
      assert (s + [h])[1..] == s[1..] + [h];
      RemoveFirstAfterAppend(s[1..], h);
    }
  }

  /** The file away.txt; `lines` is its content, one hostmask per line. */
  class AwayFile {
    var lines: seq<string>

    constructor (initial: seq<string>)
      ensures lines == initial
    {
      lines := initial;
    }

    /** getAwayList: reads the file line by line while the reader is ready. */
    method GetAwayList() returns (hostmasks: seq<string>)
      ensures hostmasks == lines
    {
      hostmasks := [];
      var pos := 0;
      while pos < |lines|
        invariant 0 <= pos <= |lines|
        invariant hostmasks == lines[..pos]
      {
        hostmasks := hostmasks + [lines[pos]];
        pos := pos + 1;
      }
    }

    /** setUserAway: opens the file for appending and writes one more line. */
    method SetUserAway(hostmask: string)
      modifies this
      ensures lines == old(lines) + [hostmask]
    {
      lines := lines + [hostmask];
    }

    /** setUserBack: truncates the file, removes the first `hostmask` from the
        caller's list (returned here as `remaining`, since the source changes
        that list in place) and writes what is left, line by line. */
    method SetUserBack(awayList: seq<string>, hostmask: string) returns (remaining: seq<string>)
      modifies this
      ensures remaining == RemoveFirst(awayList, hostmask)
      ensures lines == remaining
    {
      lines := [];
      remaining := RemoveFirst(awayList, hostmask);
      var ctr := 0;
      while ctr < |remaining|
        invariant 0 <= ctr <= |remaining|
        invariant lines == remaining[..ctr]
      {
        lines := lines + [remaining[ctr]];
        ctr := ctr + 1;
      }
    }

    /** clearAwayList: opens the file for writing and closes it empty. */
    method ClearAwayList()
      modifies this
      ensures lines == []
    {
      lines := [];
    }
  }
}
