/**
 * The sentence as shown to the learner (`getUpdatedSentence`) and the
 * completion test (`isComplete`): the placed letters are laid over the
 * sentence's characters and the result is complete when no blank marker is
 * left in it.
 */
module Sentence {
  import opened Letters
  import opened Blanks

  /** Splitting a string into its characters: one one-character string per character. */
  function Chars(s: string): (r: seq<string>)
    ensures |r| == |s|
    ensures forall k :: 0 <= k < |s| ==> r[k] == [s[k]]
  {
    seq(|s|, k requires 0 <= k < |s| => [s[k]])
  }

  /** Concatenation of the parts with no separator. */
  function Join(parts: seq<string>): (s: string)
  {
    if parts == [] then "" else parts[0] + Join(parts[1..])
  }

  /** A character occurs in the joined string exactly when it occurs in one of the parts. */
  lemma {:induction false} JoinContains(parts: seq<string>, c: char)
    ensures c in Join(parts) <==> exists k :: 0 <= k < |parts| && c in parts[k]
  {
    if parts != [] {
      JoinContains(parts[1..], c);
      if c in Join(parts[1..]) {
        var k :| 0 <= k < |parts[1..]| && c in parts[1..][k];
        assert c in parts[k + 1];
      }
      if exists k :: 0 <= k < |parts| && c in parts[k] {
        var k :| 0 <= k < |parts| && c in parts[k];
        if k > 0 {
          assert c in parts[1..][k - 1];
        }
      }
    }
  }

  /** The first n slots laid over parts; empty slots ("" or holes) are skipped. */
  function OverlayFirst(parts: seq<string>, slots: seq<string>, n: nat): (r: seq<string>)
    requires n <= |slots|
  {
    if n == 0 then parts
    else
      var p := OverlayFirst(parts, slots, n - 1);
      if slots[n - 1] != "" then SetSlot(p, n - 1, slots[n - 1]) else p
  }

  /** The sentence's characters with every placed letter written over its position. */
  function Overlay(oracion: string, slots: seq<string>): (r: seq<string>)
  {
    OverlayFirst(Chars(oracion), slots, |slots|)
  }

  /** `getUpdatedSentence`: overwrites the character array slot by slot, then joins it. */
  method GetUpdatedSentence(oracion: string, slots: seq<string>) returns (s: string)
    ensures s == Join(Overlay(oracion, slots))
  {
    var sentence := Chars(oracion);
    for index := 0 to |slots|
      invariant sentence == OverlayFirst(Chars(oracion), slots, index)
    {
      var letter := slots[index];
      if letter != "" {
        sentence := SetSlot(sentence, index, letter);
      }
    }
    s := Join(sentence);
  }

  /** With no more slots than characters, position k shows slot k when it is filled and the character otherwise. */
  lemma {:induction false} OverlayFirstAt(parts: seq<string>, slots: seq<string>, n: nat)
    requires n <= |slots| <= |parts|
    ensures |OverlayFirst(parts, slots, n)| == |parts|
    ensures forall k :: 0 <= k < |parts| ==>
      OverlayFirst(parts, slots, n)[k] == if k < n && slots[k] != "" then slots[k] else parts[k]
  {
    if n > 0 {
      OverlayFirstAt(parts, slots, n - 1);
    }
  }

  /** Joining one-character parts gives one character per part. */
  lemma {:induction false} JoinSingles(parts: seq<string>)
    requires forall k :: 0 <= k < |parts| ==> |parts[k]| == 1
    ensures |Join(parts)| == |parts|
    ensures forall k :: 0 <= k < |parts| ==> Join(parts)[k] == parts[k][0]
  {
    if parts != [] {
      JoinSingles(parts[1..]);
      assert forall k :: 1 <= k < |parts| ==> Join(parts)[k] == Join(parts[1..])[k - 1];
    }
  }

  /**
   * Under the slot invariant the shown sentence has the sentence's length and
   * shows the answer-key letter at each filled blank and the sentence's own
   * character everywhere else.
   */
  lemma ShownSentence(oracion: string, audio: string, slots: seq<string>)
    requires SlotsFit(oracion, audio, slots)
    ensures var shown := Join(Overlay(oracion, slots));
      && |shown| == |oracion|
      && forall k :: 0 <= k < |oracion| ==>
           shown[k] == if k < |slots| && slots[k] != "" then audio[k] else oracion[k]
  {
    var parts := Overlay(oracion, slots);
    OverlayFirstAt(Chars(oracion), slots, |slots|);
    forall k | 0 <= k < |parts|
      ensures |parts[k]| == 1
    {
      if k < |slots| && slots[k] != "" {
        assert Qualifies(oracion, audio, slots[k], k);
      }
    }
    JoinSingles(parts);
    forall k | 0 <= k < |oracion|
      ensures Join(parts)[k] == if k < |slots| && slots[k] != "" then audio[k] else oracion[k]
    {
      if k < |slots| && slots[k] != "" {
        assert Qualifies(oracion, audio, slots[k], k);
      }
    }
  }

  /** `isComplete`: the shown sentence contains no blank marker. */
  predicate IsCompleteOf(oracion: string, slots: seq<string>)
  {
    Placeholder !in Join(Overlay(oracion, slots))
  }

  /**
   * The slot invariant: no more slots than characters, and every filled slot
   * sits on a blank and holds that blank's answer-key letter.
   */
  ghost predicate SlotsFit(oracion: string, audio: string, slots: seq<string>)
  {
    && |slots| <= |oracion|
    && forall k :: 0 <= k < |slots| && slots[k] != "" ==> Qualifies(oracion, audio, slots[k], k)
  }

  /** Blank k holds a placed letter other than the blank marker itself. */
  predicate Filled(slots: seq<string>, k: nat)
  {
    k < |slots| && slots[k] != "" && slots[k] != [Placeholder]
  }

  /**
   * Completion holds exactly when every blank of the sentence has been
   * filled with a letter that is not itself the blank marker.
   */
  lemma CompleteIff(oracion: string, audio: string, slots: seq<string>)
    requires SlotsFit(oracion, audio, slots)
    ensures IsCompleteOf(oracion, slots) <==>
      forall k: nat :: k < |oracion| && oracion[k] == Placeholder ==> Filled(slots, k)
  {
    var parts := Overlay(oracion, slots);
    OverlayFirstAt(Chars(oracion), slots, |slots|);
    JoinContains(parts, Placeholder);
    forall k | 0 <= k < |oracion|
      ensures Placeholder in parts[k] <==> oracion[k] == Placeholder && !Filled(slots, k)
    {
      if k < |slots| && slots[k] != "" {
        assert Qualifies(oracion, audio, slots[k], k);
      }
    }
  }
}
